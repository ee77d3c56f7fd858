/** FIFO refinement: the whole pipeline (published, drained, completed, running,
    waiting) is at all times the accepted sequence minus the removed jobs. */
module ProtocolFifo {
  import opened Core
  import opened Sequences
  import opened TranscriptionQueues
  import opened Captures
  import opened Traces
  import opened Protocol
  import opened ProtocolControl

  /** The accepted jobs that were neither cancelled nor dropped. */
  function Survivors(s: Sys): seq<SessionId> {
    Without(s.accepted, s.removed)
  }

  ghost predicate Fifo(s: Sys) {
    && Increasing(s.accepted)
    && (forall id :: id in s.removed ==> id in s.accepted)
    && Delivered(s) + Running(s.worker) + JobIds(s.queue.pending) == Survivors(s)
    && StartedIn(s.trace) + s.queue.started == Delivered(s) + Running(s.worker)
    && |ResultsIn(s.trace)| <= |StartedIn(s.trace)|
  }

  /** Events that are neither start notices nor results. */
  predicate Silent(events: seq<Event>) {
    StartedIn(events) == [] && ResultsIn(events) == []
  }

  lemma SilentAppends(trace: seq<Event>, events: seq<Event>)
    requires Silent(events)
    ensures StartedIn(trace + events) == StartedIn(trace)
    ensures ResultsIn(trace + events) == ResultsIn(trace)
  {
    StartedConcat(trace, events);
    ResultsConcat(trace, events);
  }

  /** Published results are the first published start notices. */
  lemma ResultsFollowStarts(s: Sys)
    requires Fifo(s)
    ensures ResultsIn(s.trace) <= StartedIn(s.trace)
  {
    var all := StartedIn(s.trace) + s.queue.started;
    assert all[..|ResultsIn(s.trace)|] == ResultsIn(s.trace);
    assert all[..|StartedIn(s.trace)|] == StartedIn(s.trace);
  }

  /** The parts of the pipeline are pairwise disjoint and in id order. */
  lemma FifoOrder(s: Sys)
    requires Fifo(s)
    ensures Increasing(Survivors(s))
    ensures Increasing(Delivered(s) + Running(s.worker)) && Increasing(JobIds(s.queue.pending))
    ensures Increasing(StartedIn(s.trace)) && Increasing(s.queue.started)
    ensures Increasing(ResultsIn(s.trace)) && Increasing(HeldIds(s.owner))
    ensures forall id :: id in Delivered(s) + Running(s.worker) + JobIds(s.queue.pending) <==>
              id in s.accepted && id !in s.removed
    ensures forall x, y :: x in Delivered(s) + Running(s.worker) && y in JobIds(s.queue.pending) ==> x < y
    ensures forall x, y :: x in StartedIn(s.trace) && y in s.queue.started ==> x < y
    ensures forall x, y :: x in ResultsIn(s.trace) && y in HeldIds(s.owner) ==> x < y
  {
    WithoutIncreasing(s.accepted, s.removed);
    WithoutMembers(s.accepted, s.removed);
    IncreasingSplits(Delivered(s) + Running(s.worker), JobIds(s.queue.pending));
    IncreasingSplits(StartedIn(s.trace), s.queue.started);
    IncreasingSplits(Delivered(s), Running(s.worker));
    IncreasingSplits(ResultsIn(s.trace) + HeldIds(s.owner), ResultIds(s.queue.completed));
    IncreasingSplits(ResultsIn(s.trace), HeldIds(s.owner));
  }

  lemma DeliveredIsNotWaiting(s: Sys)
    requires Fifo(s)
    ensures forall x :: x in Delivered(s) ==> x !in JobIds(s.queue.pending)
  {
    var head := Delivered(s) + Running(s.worker);
    WithoutIncreasing(s.accepted, s.removed);
    IncreasingSplits(head, JobIds(s.queue.pending));
    assert forall x :: x in Delivered(s) ==> x in head;
  }

  lemma FifoInit(capacity: nat)
    ensures Fifo(Init(capacity))
  {
  }

  lemma FifoTake(s: Sys, outcome: Outcome)
    requires Fifo(s) && s.worker.Checking? && !s.queue.stopping && s.queue.pending != []
    ensures Fifo(WorkerNext(s, outcome)) && Delivered(s) <= Delivered(WorkerNext(s, outcome))
  {
    var n := WorkerNext(s, outcome);
    var x, rest := s.queue.pending[0].id, JobIds(s.queue.pending[1..]);
    assert JobIds(s.queue.pending) == [x] + rest;
    Regroup(Delivered(s), [x], rest);
    assert Delivered(n) == Delivered(s) && Running(s.worker) == [] && Running(n.worker) == [x];
    assert StartedIn(n.trace) + n.queue.started == StartedIn(s.trace) + s.queue.started + [x];
  }

  lemma FifoDeliver(s: Sys, outcome: Outcome)
    requires Fifo(s) && s.worker.Delivering?
    ensures Fifo(WorkerNext(s, outcome)) && Delivered(s) <= Delivered(WorkerNext(s, outcome))
  {
    var n := WorkerNext(s, outcome);
    var x := s.worker.job.id;
    assert ResultIds(n.queue.completed) == ResultIds(s.queue.completed) + [x];
    assert Delivered(n) == Delivered(s) + [x];
    assert Running(n.worker) == [] && Running(s.worker) == [x];
    assert Delivered(n) + Running(n.worker) == Delivered(s) + Running(s.worker);
  }

  lemma FifoWorker(s: Sys, outcome: Outcome)
    requires Fifo(s) && Enabled(s, WorkerMoves(outcome))
    ensures Fifo(WorkerNext(s, outcome)) && Delivered(s) <= Delivered(WorkerNext(s, outcome))
  {
    var n := WorkerNext(s, outcome);
    if s.worker.Checking? && !s.queue.stopping && s.queue.pending != [] {
      FifoTake(s, outcome);
    } else if s.worker.Delivering? {
      FifoDeliver(s, outcome);
    } else {
      FifoSame(s, n);
    }
  }

  /** A step that touches neither the pipeline nor the trace. */
  lemma FifoSame(s: Sys, n: Sys)
    requires Fifo(s)
    requires n.trace == s.trace && n.queue == s.queue && n.accepted == s.accepted && n.removed == s.removed
    requires Running(n.worker) == Running(s.worker) && HeldIds(n.owner) == HeldIds(s.owner)
    ensures Fifo(n) && Delivered(n) == Delivered(s)
  {
  }

  /** A step that publishes only silent events and leaves the pipeline alone. */
  lemma FifoSilent(s: Sys, n: Sys, events: seq<Event>)
    requires Fifo(s) && Silent(events)
    requires n.trace == s.trace + events
    requires n.queue == s.queue && n.accepted == s.accepted && n.removed == s.removed
    requires Running(n.worker) == Running(s.worker) && HeldIds(n.owner) == HeldIds(s.owner)
    ensures Fifo(n) && Delivered(n) == Delivered(s)
  {
    SilentAppends(s.trace, events);
  }

  lemma FifoAccept(s: Sys, job: Job)
    requires Fifo(s) && s.owner.Commands?
    requires forall id :: id in s.accepted ==> id < job.id
    ensures Fifo(Accept(s, job)) && Delivered(Accept(s, job)) == Delivered(s)
    ensures Survivors(Accept(s, job)) == Survivors(s) + [job.id]
  {
    var n := Accept(s, job);
    IncreasingExtends(s.accepted, job.id);
    WithoutConcat(s.accepted, [job.id], s.removed);
    assert Without([job.id], s.removed) == [job.id];
    assert JobIds(n.queue.pending) == JobIds(s.queue.pending) + [job.id];
    assert Delivered(n) == Delivered(s);
  }

  /** Cancelling a waiting job takes exactly that job out of the pipeline. */
  lemma CancelTakesOne(s: Sys, id: SessionId)
    requires Fifo(s) && id in JobIds(s.queue.pending)
    ensures id in s.accepted && id !in s.removed
    ensures var left := JobIds(Erased(s.queue.pending, id));
            && Without(s.accepted, s.removed + {id}) == Without(Survivors(s), {id})
            && Delivered(s) + Running(s.worker) + left == Without(Survivors(s), {id})
  {
    var front, back := ErasedIds(s.queue.pending, id);
    WithoutIncreasing(s.accepted, s.removed);
    WithoutOneBehind(Delivered(s) + Running(s.worker), front, id, back);
    WithoutMembers(s.accepted, s.removed);
    WithoutTwice(s.accepted, s.removed, {id});
  }

  lemma FifoCancelJob(s: Sys, c: Choice)
    requires Fifo(s) && s.owner.Commands? && c.command.CancelJob? && c.command.id in JobIds(s.queue.pending)
    ensures Fifo(CommandNext(s, c)) && Delivered(CommandNext(s, c)) == Delivered(s)
  {
    var n := CommandNext(s, c);
    CancelTakesOne(s, c.command.id);
    SilentAppends(s.trace, [SessionCancelled(c.command.id)]);
    assert Delivered(n) == Delivered(s);
  }

  lemma FifoDraining(s: Sys, c: Choice)
    requires Fifo(s) && s.owner.Draining?
    ensures Fifo(HandingNext(s, c)) && Delivered(HandingNext(s, c)) == Delivered(s)
  {
    var n := HandingNext(s, c);
    assert Delivered(n) == Delivered(s);
  }

  lemma ProjectsInThree(a: seq<Event>, b: seq<Event>, c: seq<Event>)
    ensures StartedIn(a + b + c) == StartedIn(a) + StartedIn(b) + StartedIn(c)
    ensures ResultsIn(a + b + c) == ResultsIn(a) + ResultsIn(b) + ResultsIn(c)
  {
    StartedConcat(a, b);
    StartedConcat(a + b, c);
    ResultsConcat(a, b);
    ResultsConcat(a + b, c);
  }

  /** What poll_completed() adds to the two projections. */
  lemma AnnouncedMeans(trace: seq<Event>, started: seq<SessionId>, held: seq<JobResult>, fails: set<SessionId>)
    requires Increasing(started) && Increasing(ResultIds(held))
    ensures var after := trace + StartNotices(started) + ResultNotices(held, fails);
            && StartedIn(after) == StartedIn(trace) + started
            && ResultsIn(after) == ResultsIn(trace) + ResultIds(held)
  {
    var starts, results := StartNotices(started), ResultNotices(held, fails);
    StartNoticesMean(started, Unseen, 0);
    ResultNoticesProject(held, fails);
    ProjectsInThree(trace, starts, results);
    assert StartedIn(trace) + started + [] == StartedIn(trace) + started;
    assert ResultsIn(trace) + [] == ResultsIn(trace);
  }

  lemma HeldDistinct(held: seq<JobResult>)
    requires Increasing(ResultIds(held))
    ensures forall i, j :: 0 <= i < j < |held| ==> held[i].id != held[j].id
  {
    forall i, j | 0 <= i < j < |held| ensures held[i].id != held[j].id {
      assert ResultIds(held)[i] < ResultIds(held)[j];
    }
  }

  lemma FifoDrainingStarted(s: Sys, c: Choice)
    requires Fifo(s) && s.owner.DrainingStarted?
    ensures var n := HandingNext(s, c);
            && Fifo(n) && Delivered(n) == Delivered(s)
            && StartedIn(n.trace) == StartedIn(s.trace) + s.queue.started
            && ResultsIn(n.trace) == ResultsIn(s.trace) + HeldIds(s.owner)
  {
    var n := HandingNext(s, c);
    FifoOrder(s);
    AnnouncedMeans(s.trace, s.queue.started, s.owner.held, c.clipboardFails);
    assert ResultsIn(n.trace) + [] == ResultsIn(n.trace);
    assert StartedIn(n.trace) + [] == StartedIn(n.trace);
    assert Delivered(n) == Delivered(s);
  }

  /** Dropping what waits takes exactly the tail out of the pipeline. */
  lemma DropTakesTail(s: Sys, ids: seq<SessionId>)
    requires Fifo(s) && ids == JobIds(s.queue.pending)
    ensures forall id :: id in ids ==> id in s.accepted && id !in s.removed
    ensures Without(s.accepted, s.removed + set id | id in ids) == Delivered(s) + Running(s.worker)
  {
    WithoutIncreasing(s.accepted, s.removed);
    WithoutMembers(s.accepted, s.removed);
    WithoutTwice(s.accepted, s.removed, set id | id in ids);
    WithoutTail(Delivered(s) + Running(s.worker), ids);
    assert forall x :: x in ids ==> x in Survivors(s);
  }

  lemma FifoStopping(s: Sys, c: Choice)
    requires Fifo(s) && s.owner.Stopping?
    ensures Fifo(ShutdownNext(s, c)) && Delivered(ShutdownNext(s, c)) == Delivered(s)
  {
    var n := ShutdownNext(s, c);
    DropTakesTail(s, JobIds(s.queue.pending));
    assert JobIds(n.queue.pending) == [];
    Regroup(Delivered(s) + Running(s.worker), [], []);
    assert Delivered(n) == Delivered(s);
  }

  lemma FifoJoining(s: Sys, c: Choice)
    requires Fifo(s) && s.owner.Joining? && Increasing(s.owner.dropped)
    ensures Fifo(ShutdownNext(s, c)) && Delivered(ShutdownNext(s, c)) == Delivered(s)
  {
    DropNoticesMean(s.owner.dropped, Unseen, 0);
    FifoSilent(s, ShutdownNext(s, c), DropNotices(s.owner.dropped));
  }

  /** Short event lists of the capture operations are silent. */
  lemma CaptureEventsSilent(capture: Capture, room: bool, opens: bool, lost: bool, samples: seq<Sample>)
    ensures Silent(StartedSession(capture, room, opens).1)
    ensures Silent(StoppedRecording(capture, lost, samples).1)
    ensures Silent(CancelledSession(capture, lost, samples).1)
  {
    var events := CancelledSession(capture, lost, samples).1;
    if |events| == 2 {
      assert events == [events[0]] + [events[1]];
      SilentAppends([events[0]], [events[1]]);
    }
  }

  lemma FifoStop(s: Sys, c: Choice)
    requires Fifo(s) && Control(s) && s.owner.Commands? && c.command.Stop?
    ensures Fifo(CommandNext(s, c)) && Delivered(CommandNext(s, c)) == Delivered(s)
  {
    var (capture, events, job) := StoppedRecording(s.capture, c.lost, c.samples);
    var stopped := s.(capture := capture, trace := s.trace + events);
    CaptureEventsSilent(s.capture, true, true, c.lost, c.samples);
    FifoSilent(s, stopped, events);
    if job.Some? {
      assert HasRoom(s.queue) && forall id :: id in s.accepted ==> id < job.value.id;
      FifoAccept(stopped, job.value);
    }
  }

  lemma FifoCommand(s: Sys, c: Choice)
    requires Fifo(s) && s.owner.Commands? && !c.command.Stop?
    ensures Fifo(CommandNext(s, c)) && Delivered(CommandNext(s, c)) == Delivered(s)
  {
    var n := CommandNext(s, c);
    if c.command.Start? {
      CaptureEventsSilent(s.capture, HasRoom(s.queue), c.opens, c.lost, c.samples);
      FifoSilent(s, n, StartedSession(s.capture, HasRoom(s.queue), c.opens).1);
    } else if c.command.CancelSession? {
      CaptureEventsSilent(s.capture, HasRoom(s.queue), c.opens, c.lost, c.samples);
      FifoSilent(s, n, CancelledSession(s.capture, c.lost, c.samples).1);
    } else if c.command.CancelJob? && c.command.id in JobIds(s.queue.pending) {
      FifoCancelJob(s, c);
    } else {
      FifoSame(s, n);
    }
  }

  lemma FifoHanding(s: Sys, c: Choice)
    requires Fifo(s) && Handing(s.owner)
    ensures Fifo(HandingNext(s, c)) && Delivered(HandingNext(s, c)) == Delivered(s)
  {
    match s.owner
    case Notifying(id, position) =>
      FifoSilent(s, HandingNext(s, c), [TranscriptionQueued(id, position)]);
    case Draining(_) => FifoDraining(s, c);
    case DrainingStarted(_, _) => FifoDrainingStarted(s, c);
  }

  lemma FifoShutdown(s: Sys, c: Choice)
    requires Fifo(s) && Enabled(s, OwnerMoves(c))
    requires !s.owner.Commands? && !InLoop(s.owner) && !Handing(s.owner)
    requires s.owner.Joining? ==> Increasing(s.owner.dropped)
    ensures Fifo(ShutdownNext(s, c)) && Delivered(ShutdownNext(s, c)) == Delivered(s)
  {
    if s.owner.Cancelling? {
      CaptureEventsSilent(s.capture, true, true, c.lost, c.samples);
      FifoSilent(s, ShutdownNext(s, c), CancelledSession(s.capture, c.lost, c.samples).1);
    } else if s.owner.Stopping? {
      FifoStopping(s, c);
    } else if s.owner.Joining? {
      FifoJoining(s, c);
    } else {
      FifoSame(s, ShutdownNext(s, c));
    }
  }

  lemma FifoOwner(s: Sys, c: Choice)
    requires Fifo(s) && Control(s) && Enabled(s, OwnerMoves(c))
    requires s.owner.Joining? ==> Increasing(s.owner.dropped)
    ensures Fifo(OwnerNext(s, c)) && Delivered(OwnerNext(s, c)) == Delivered(s)
  {
    if s.owner.Commands? {
      if c.command.Stop? {
        FifoStop(s, c);
      } else {
        FifoCommand(s, c);
      }
    } else if InLoop(s.owner) {
      FifoSame(s, LoopNext(s, c));
    } else if Handing(s.owner) {
      FifoHanding(s, c);
    } else {
      FifoShutdown(s, c);
    }
  }

  lemma FifoStep(s: Sys, a: Action)
    requires Fifo(s) && Control(s) && Enabled(s, a)
    requires s.owner.Joining? ==> Increasing(s.owner.dropped)
    ensures Fifo(Next(s, a)) && Delivered(s) <= Delivered(Next(s, a))
  {
    match a
    case WorkerMoves(outcome) => FifoWorker(s, outcome);
    case SpuriousWakeup =>
    case OwnerMoves(c) => FifoOwner(s, c);
  }
}
