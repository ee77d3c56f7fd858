/** The life of every job as clients see it: at each moment the published trace
    puts it exactly in the phase its place in the pipeline calls for. */
module ProtocolOutcome {
  import opened Core
  import opened Sequences
  import opened TranscriptionQueues
  import opened Captures
  import opened Traces
  import opened Protocol
  import opened ProtocolControl
  import opened ProtocolFifo

  /** Dropped jobs the owner has yet to report. */
  function HeldDrops(o: Owner): seq<SessionId> {
    if o.StopNotify? || o.StopAbort? || o.Joining? then o.dropped else []
  }

  predicate Announcing(o: Owner, id: SessionId) {
    o.Notifying? && o.id == id
  }

  /** What the trace says of the session being recorded. */
  function RecordingPhase(state: SessionState): Phase {
    match state
    case Recording => Capturing
    case Processing => Captured
    case _ => Faulty
  }

  /** A session that is no job: being recorded, or failed and not yet acknowledged, or
      cancelled, or never begun. */
  predicate CapturePhaseOk(c: Capture, id: SessionId, p: Phase) {
    if c.active.Some? && c.active.value.id == id then p == RecordingPhase(c.active.value.state)
    else if id >= c.nextId then p.Unseen?
    else p.Unseen? || p.Discarded?
  }

  predicate PhaseOk(s: Sys, id: SessionId) {
    var p := PhaseOf(s.trace, id);
    if id !in s.accepted || Announcing(s.owner, id) then CapturePhaseOk(s.capture, id, p)
    else if id in s.removed then
      if id in HeldDrops(s.owner) then p.Queued?
      else if id in s.dropped then p == Ended(DroppedAtShutdown)
      else p == Ended(CancelledInQueue)
    else if id in ResultsIn(s.trace) then p == Ended(Transcribed) || p == Ended(FailedInSpeech)
    else if id in StartedIn(s.trace) then p.Started?
    else p.Queued?
  }

  ghost predicate Outcomes(s: Sys) {
    && (forall id :: PhaseOk(s, id))
    && Increasing(HeldDrops(s.owner))
    && (forall id :: id in HeldDrops(s.owner) ==> id in s.dropped)
    && s.dropped <= s.removed
    && (s.owner.Notifying? ==> s.owner.id !in s.removed)
  }

  lemma PhaseAppends(trace: seq<Event>, e: Event, id: SessionId)
    ensures PhaseOf(trace + [e], id) == NextPhase(PhaseOf(trace, id), e, id)
  {
    PhaseConcat(Unseen, trace, [e], id);
    assert [e][1..] == [];
  }

  lemma OutcomesInit(capacity: nat)
    ensures Outcomes(Init(capacity))
  {
    forall id ensures PhaseOk(Init(capacity), id) {
    }
  }

  /** Steps that publish only about the session being recorded. */
  lemma OutcomesSame(s: Sys, n: Sys, events: seq<Event>)
    requires Outcomes(s) && Silent(events) && n.trace == s.trace + events
    requires n.accepted == s.accepted && n.removed == s.removed && n.dropped == s.dropped
    requires HeldDrops(n.owner) == HeldDrops(s.owner) && !s.owner.Notifying? && !n.owner.Notifying?
    requires forall id, p :: id in s.accepted ==> PhaseFrom(p, events, id) == p
    requires forall id, p :: id !in s.accepted && CapturePhaseOk(s.capture, id, p) ==>
               CapturePhaseOk(n.capture, id, PhaseFrom(p, events, id))
    ensures Outcomes(n)
  {
    SilentAppends(s.trace, events);
    forall id ensures PhaseOk(n, id) {
      assert PhaseOk(s, id);
      PhaseConcat(Unseen, s.trace, events, id);
    }
  }

  lemma PhaseOfOne(p: Phase, e: Event, id: SessionId)
    ensures PhaseFrom(p, [e], id) == NextPhase(p, e, id)
  {
    assert [e][1..] == [];
  }

  lemma PhaseOfTwo(p: Phase, e: Event, f: Event, id: SessionId)
    ensures PhaseFrom(p, [e, f], id) == NextPhase(NextPhase(p, e, id), f, id)
  {
    assert [e, f][1..] == [f];
    PhaseOfOne(NextPhase(p, e, id), f, id);
  }

  /** The events of start_session() move exactly the session they start. */
  lemma StartPhases(c: Capture, room: bool, opens: bool, id: SessionId, p: Phase)
    requires Coupled(c)
    ensures var (n, events) := StartedSession(c, room, opens);
            && (id < c.nextId ==> PhaseFrom(p, events, id) == p)
            && (CapturePhaseOk(c, id, p) ==> CapturePhaseOk(n, id, PhaseFrom(p, events, id)))
  {
    var (n, events) := StartedSession(c, room, opens);
    if events != [] {
      assert events == [events[0]];
      PhaseOfOne(p, events[0], id);
    }
  }

  /** The events of stop_session() up to the finished recording. */
  lemma StopPhases(c: Capture, lost: bool, samples: seq<Sample>, id: SessionId, p: Phase)
    requires Coupled(c)
    ensures var (n, events, _) := StoppedRecording(c, lost, samples);
            && ((c.active.Some? ==> c.active.value.id != id) ==> PhaseFrom(p, events, id) == p)
            && (CapturePhaseOk(c, id, p) ==> CapturePhaseOk(n, id, PhaseFrom(p, events, id)))
  {
    var (n, events, _) := StoppedRecording(c, lost, samples);
    if events != [] {
      assert events == [events[0]];
      PhaseOfOne(p, events[0], id);
    }
  }

  /** The events of cancel_session(). */
  lemma CancelPhases(c: Capture, lost: bool, samples: seq<Sample>, id: SessionId, p: Phase)
    requires Coupled(c)
    ensures var (n, events) := CancelledSession(c, lost, samples);
            && ((c.active.Some? ==> c.active.value.id != id) ==> PhaseFrom(p, events, id) == p)
            && (CapturePhaseOk(c, id, p) ==> CapturePhaseOk(n, id, PhaseFrom(p, events, id)))
  {
    var (n, events) := CancelledSession(c, lost, samples);
    if |events| == 1 {
      assert events == [events[0]];
      PhaseOfOne(p, events[0], id);
    } else if |events| == 2 {
      assert events == [events[0], events[1]];
      PhaseOfTwo(p, events[0], events[1], id);
    }
  }

  lemma OutcomesAccept(s: Sys, job: Job)
    requires Outcomes(s) && s.owner.Commands? && job.id !in s.accepted
    requires forall id :: id in s.removed ==> id in s.accepted
    ensures Outcomes(Accept(s, job))
  {
    var n := Accept(s, job);
    forall id ensures PhaseOk(n, id) {
      assert PhaseOk(s, id);
    }
  }

  lemma OutcomesNotifying(s: Sys, c: Choice)
    requires Outcomes(s) && Control(s) && s.owner.Notifying?
    ensures Outcomes(HandingNext(s, c))
  {
    var n := HandingNext(s, c);
    var e := TranscriptionQueued(s.owner.id, s.owner.position);
    SilentAppends(s.trace, [e]);
    forall id ensures PhaseOk(n, id) {
      assert PhaseOk(s, id);
      PhaseAppends(s.trace, e, id);
      if id == s.owner.id {
        UnqueuedHasNoNotice(Unseen, s.trace, id);
      }
    }
  }

  lemma OutcomesCancelJob(s: Sys, c: Choice)
    requires Outcomes(s) && Fifo(s)
    requires s.owner.Commands? && c.command.CancelJob? && c.command.id in JobIds(s.queue.pending)
    ensures Outcomes(CommandNext(s, c))
  {
    var n := CommandNext(s, c);
    CancelTakesOne(s, c.command.id);
    SilentAppends(s.trace, [SessionCancelled(c.command.id)]);
    WaitingIsQueued(s, c.command.id);
    forall id ensures PhaseOk(n, id) {
      assert PhaseOk(s, id);
      PhaseAppends(s.trace, SessionCancelled(c.command.id), id);
    }
  }

  /** A waiting job has been announced and nothing else. */
  lemma WaitingIsQueued(s: Sys, id: SessionId)
    requires Fifo(s) && id in JobIds(s.queue.pending)
    ensures id in s.accepted && id !in s.removed && id !in StartedIn(s.trace) && id !in ResultsIn(s.trace)
    ensures PhaseOk(s, id) && !Announcing(s.owner, id) ==> PhaseOf(s.trace, id).Queued?
  {
    FifoOrder(s);
    var all := Delivered(s) + Running(s.worker);
    assert id in all + JobIds(s.queue.pending);
    assert forall x :: x in StartedIn(s.trace) ==> x in StartedIn(s.trace) + s.queue.started;
    assert forall x :: x in ResultsIn(s.trace) ==> x in all;
  }

  lemma OutcomesDrainingStarted(s: Sys, c: Choice)
    requires Outcomes(s) && Fifo(s) && s.owner.DrainingStarted?
    ensures Outcomes(HandingNext(s, c))
  {
    var n := HandingNext(s, c);
    forall id ensures PhaseOk(n, id) {
      DrainedPhase(s, c, id);
    }
  }

  /** Start notices come before results: a drained result's start is in the same
      drain or an earlier one. */
  lemma DrainedPhase(s: Sys, c: Choice, id: SessionId)
    requires Outcomes(s) && Fifo(s) && s.owner.DrainingStarted?
    ensures PhaseOk(HandingNext(s, c), id)
  {
    var n := HandingNext(s, c);
    var started, held := s.queue.started, s.owner.held;
    assert PhaseOk(s, id);
    assert Increasing(started) && Increasing(ResultIds(held)) by {
      FifoOrder(s);
    }
    assert StartedIn(n.trace) == StartedIn(s.trace) + started
           && ResultsIn(n.trace) == ResultsIn(s.trace) + ResultIds(held) by {
      FifoDrainingStarted(s, c);
    }
    HeldWereStarted(s, id);
    AnnouncedPhase(s.trace, started, held, c.clipboardFails, id);
  }

  lemma AnnouncedPhase(trace: seq<Event>, started: seq<SessionId>, held: seq<JobResult>, fails: set<SessionId>,
                       id: SessionId)
    requires Increasing(started) && Increasing(ResultIds(held))
    ensures var p, n := PhaseOf(trace, id), PhaseOf(trace + StartNotices(started) + ResultNotices(held, fails), id);
            var begun := if id !in started then p else if p.Queued? then Started else Broken;
            && (id !in ResultIds(held) ==> n == begun)
            && (id in ResultIds(held) && begun.Started? ==> n == Ended(Transcribed) || n == Ended(FailedInSpeech))
  {
    var starts, results := StartNotices(started), ResultNotices(held, fails);
    HeldDistinct(held);
    StartNoticesMean(started, PhaseOf(trace, id), id);
    ResultNoticesMean(held, fails, PhaseFrom(PhaseOf(trace, id), starts, id), id);
    PhaseConcat(Unseen, trace, starts, id);
    PhaseConcat(Unseen, trace + starts, results, id);
  }

  lemma HeldWereStarted(s: Sys, id: SessionId)
    requires Fifo(s)
    ensures id in HeldIds(s.owner) ==>
              (id in StartedIn(s.trace) || id in s.queue.started) && id !in ResultsIn(s.trace)
    ensures id in HeldIds(s.owner) || id in s.queue.started ==> id in s.accepted && id !in s.removed
    ensures id in s.queue.started ==> id !in StartedIn(s.trace)
    ensures id in ResultsIn(s.trace) ==> id in StartedIn(s.trace)
  {
    BegunJobs(s, id);
    ResultsFollowStarts(s);
    assert id in HeldIds(s.owner) ==> id in Delivered(s) && id !in ResultsIn(s.trace) by {
      FifoOrder(s);
    }
    assert id in s.queue.started ==> id !in StartedIn(s.trace) by {
      FifoOrder(s);
    }
  }

  /** The jobs begun are those with a result or running; they are accepted and not removed. */
  lemma BegunJobs(s: Sys, id: SessionId)
    requires Fifo(s)
    ensures id in StartedIn(s.trace) || id in s.queue.started <==> id in Delivered(s) || id in Running(s.worker)
    ensures id in Delivered(s) || id in Running(s.worker) ==> id in s.accepted && id !in s.removed
  {
    var all := Delivered(s) + Running(s.worker);
    assert id in StartedIn(s.trace) + s.queue.started <==> id in all;
    assert id in all ==> id in all + JobIds(s.queue.pending);
    WithoutMembers(s.accepted, s.removed);
  }

  lemma OutcomesStopping(s: Sys, c: Choice)
    requires Outcomes(s) && Fifo(s) && s.owner.Stopping?
    ensures Outcomes(ShutdownNext(s, c))
  {
    var n := ShutdownNext(s, c);
    var dropped := JobIds(s.queue.pending);
    FifoOrder(s);
    forall id ensures PhaseOk(n, id) {
      assert PhaseOk(s, id);
      if id in dropped {
        WaitingIsQueued(s, id);
      }
    }
  }

  lemma OutcomesJoining(s: Sys, c: Choice)
    requires Outcomes(s) && Fifo(s) && s.owner.Joining?
    ensures Outcomes(ShutdownNext(s, c))
  {
    var n := ShutdownNext(s, c);
    var dropped := s.owner.dropped;
    DropNoticesMean(dropped, Unseen, 0);
    SilentAppends(s.trace, DropNotices(dropped));
    forall id ensures PhaseOk(n, id) {
      assert PhaseOk(s, id);
      PhaseConcat(Unseen, s.trace, DropNotices(dropped), id);
      DropNoticesMean(dropped, PhaseOf(s.trace, id), id);
    }
  }

  lemma OutcomesStop(s: Sys, c: Choice)
    requires Outcomes(s) && Control(s) && Fifo(s) && s.owner.Commands? && c.command.Stop?
    ensures Outcomes(CommandNext(s, c))
  {
    var (capture, events, job) := StoppedRecording(s.capture, c.lost, c.samples);
    var stopped := s.(capture := capture, trace := s.trace + events);
    assert Outcomes(stopped) by {
      CaptureEventsSilent(s.capture, true, true, c.lost, c.samples);
      forall id, p {
        StopPhases(s.capture, c.lost, c.samples, id, p);
      }
      OutcomesSame(s, stopped, events);
    }
    if job.Some? {
      assert HasRoom(s.queue) && job.value.id !in s.accepted;
      OutcomesAccept(stopped, job.value);
    }
  }

  lemma OutcomesStart(s: Sys, c: Choice)
    requires Outcomes(s) && Control(s) && s.owner.Commands? && c.command.Start?
    ensures Outcomes(CommandNext(s, c))
  {
    var room := HasRoom(s.queue);
    CaptureEventsSilent(s.capture, room, c.opens, c.lost, c.samples);
    forall id, p {
      StartPhases(s.capture, room, c.opens, id, p);
    }
    OutcomesSame(s, CommandNext(s, c), StartedSession(s.capture, room, c.opens).1);
  }

  /** cancel_session(), as a command or at the end of main(). */
  lemma OutcomesCancelSession(s: Sys, n: Sys, lost: bool, samples: seq<Sample>)
    requires Outcomes(s) && Control(s) && !s.owner.Notifying? && HeldDrops(s.owner) == HeldDrops(n.owner) == []
    requires var (capture, events) := CancelledSession(s.capture, lost, samples);
             n == s.(capture := capture, trace := s.trace + events, owner := n.owner) && !n.owner.Notifying?
    ensures Outcomes(n)
  {
    CaptureEventsSilent(s.capture, true, true, lost, samples);
    forall id, p
      ensures id in s.accepted ==> PhaseFrom(p, CancelledSession(s.capture, lost, samples).1, id) == p
      ensures CapturePhaseOk(s.capture, id, p) ==>
                CapturePhaseOk(n.capture, id, PhaseFrom(p, CancelledSession(s.capture, lost, samples).1, id))
    {
      CancelPhases(s.capture, lost, samples, id, p);
    }
    OutcomesSame(s, n, CancelledSession(s.capture, lost, samples).1);
  }

  lemma OutcomesCommand(s: Sys, c: Choice)
    requires Outcomes(s) && Control(s) && Fifo(s) && s.owner.Commands?
    ensures Outcomes(CommandNext(s, c))
  {
    if c.command.Stop? {
      OutcomesStop(s, c);
    } else if c.command.Start? {
      OutcomesStart(s, c);
    } else if c.command.CancelSession? {
      OutcomesCancelSession(s, CommandNext(s, c), c.lost, c.samples);
    } else if c.command.CancelJob? && c.command.id in JobIds(s.queue.pending) {
      OutcomesCancelJob(s, c);
    } else {
      OutcomesUntouched(s, CommandNext(s, c));
    }
  }

  /** Steps that leave trace, capture, accepted and removed jobs alone. */
  lemma OutcomesUntouched(s: Sys, n: Sys)
    requires Outcomes(s) && n.trace == s.trace && n.capture == s.capture
    requires n.accepted == s.accepted && n.removed == s.removed && n.dropped == s.dropped
    requires HeldDrops(n.owner) == HeldDrops(s.owner) && !n.owner.Notifying? && !s.owner.Notifying?
    ensures Outcomes(n)
  {
    forall id ensures PhaseOk(n, id) {
      assert PhaseOk(s, id);
    }
  }

  lemma OutcomesWorker(s: Sys, outcome: Outcome)
    requires Outcomes(s) && Enabled(s, WorkerMoves(outcome))
    ensures Outcomes(WorkerNext(s, outcome))
  {
    var n := WorkerNext(s, outcome);
    forall id ensures PhaseOk(n, id) {
      assert PhaseOk(s, id);
    }
  }

  lemma OutcomesHanding(s: Sys, c: Choice)
    requires Outcomes(s) && Control(s) && Fifo(s) && Handing(s.owner)
    ensures Outcomes(HandingNext(s, c))
  {
    if s.owner.Notifying? {
      OutcomesNotifying(s, c);
    } else if s.owner.Draining? {
      OutcomesUntouched(s, HandingNext(s, c));
    } else {
      OutcomesDrainingStarted(s, c);
    }
  }

  lemma OutcomesShutdown(s: Sys, c: Choice)
    requires Outcomes(s) && Control(s) && Fifo(s) && Enabled(s, OwnerMoves(c))
    requires !s.owner.Commands? && !InLoop(s.owner) && !Handing(s.owner)
    ensures Outcomes(ShutdownNext(s, c))
  {
    if s.owner.Cancelling? {
      OutcomesCancelSession(s, ShutdownNext(s, c), c.lost, c.samples);
    } else if s.owner.Stopping? {
      OutcomesStopping(s, c);
    } else if s.owner.Joining? {
      OutcomesJoining(s, c);
    } else {
      OutcomesUntouched(s, ShutdownNext(s, c));
    }
  }

  lemma OutcomesOwner(s: Sys, c: Choice)
    requires Outcomes(s) && Control(s) && Fifo(s) && Enabled(s, OwnerMoves(c))
    ensures Outcomes(OwnerNext(s, c))
  {
    if s.owner.Commands? {
      OutcomesCommand(s, c);
    } else if InLoop(s.owner) {
      OutcomesUntouched(s, LoopNext(s, c));
    } else if Handing(s.owner) {
      OutcomesHanding(s, c);
    } else {
      OutcomesShutdown(s, c);
    }
  }

  lemma OutcomesStep(s: Sys, a: Action)
    requires Outcomes(s) && Control(s) && Fifo(s) && Enabled(s, a)
    ensures Outcomes(Next(s, a))
  {
    match a
    case WorkerMoves(outcome) => OutcomesWorker(s, outcome);
    case SpuriousWakeup =>
      forall id ensures PhaseOk(Next(s, a), id) {
        assert PhaseOk(s, id);
      }
    case OwnerMoves(c) => OutcomesOwner(s, c);
  }
}
