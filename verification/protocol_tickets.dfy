/** What a job's queue position promises, and that the audio decoded for a job is
    its own recording. */
module ProtocolTickets {
  import opened Core
  import opened Sequences
  import opened TranscriptionQueues
  import opened Captures
  import opened Traces
  import opened Protocol
  import opened ProtocolControl
  import opened ProtocolFifo

  /** The pipeline up to and including a surviving job is what had been delivered
      when it was accepted, then what was ahead of it and still survives. */
  predicate TicketOk(s: Sys, id: SessionId) {
    id in s.tickets &&
    var t := s.tickets[id];
    && t.done <= Delivered(s)
    && |t.ahead| <= s.queue.capacity
    && (id !in s.removed ==> t.done + Without(t.ahead, s.removed) + [id] <= Survivors(s))
  }

  predicate PositionOk(s: Sys, id: SessionId, position: nat) {
    id in s.accepted && id in s.tickets && position == |s.tickets[id].ahead|
  }

  /** The job was handed exactly what its own recording captured. */
  predicate OwnAudio(s: Sys, job: Job) {
    RecordingFinished(job.id, job.samples) in s.trace
  }

  ghost predicate Tickets(s: Sys) {
    && (forall id :: id in s.accepted ==> TicketOk(s, id))
    && (forall e :: e in s.trace && e.TranscriptionQueued? ==> PositionOk(s, e.id, e.position))
    && (s.owner.Notifying? ==> PositionOk(s, s.owner.id, s.owner.position))
    && (forall job :: job in s.queue.pending ==> OwnAudio(s, job))
    && (Holds(s.worker) ==> OwnAudio(s, s.worker.job))
  }

  lemma TicketsInit(capacity: nat)
    ensures Tickets(Init(capacity))
  {
  }

  /** Tickets survive while the pipeline only grows. */
  lemma TicketGrows(s: Sys, n: Sys, id: SessionId)
    requires TicketOk(s, id) && id in n.tickets && n.tickets[id] == s.tickets[id]
    requires n.queue.capacity == s.queue.capacity && n.removed == s.removed
    requires Delivered(s) <= Delivered(n) && Survivors(s) <= Survivors(n)
    ensures TicketOk(n, id)
  {
  }

  /** Tickets survive when jobs without a result are removed. */
  lemma TicketShrinks(s: Sys, n: Sys, id: SessionId, gone: set<SessionId>)
    requires TicketOk(s, id) && n.tickets == s.tickets && n.queue.capacity == s.queue.capacity
    requires n.removed == s.removed + gone && Delivered(n) == Delivered(s)
    requires Survivors(n) == Without(Survivors(s), gone)
    requires forall x :: x in Delivered(s) ==> x !in gone
    ensures TicketOk(n, id)
  {
    if id !in n.removed {
      var t := s.tickets[id];
      var ahead := Without(t.ahead, s.removed);
      var upTo := t.done + ahead + [id];
      var rest := Survivors(s)[|upTo|..];
      assert Survivors(s) == upTo + rest;
      WithoutConcat(upTo, rest, gone);
      WithoutConcat(t.done + ahead, [id], gone);
      WithoutConcat(t.done, ahead, gone);
      WithoutTwice(t.ahead, s.removed, gone);
      WithoutNothing(t.done, gone);
      assert Without([id], gone) == [id];
    }
  }

  /** Steps that accept and remove nothing, take no new job into the queue, and
      announce no position. */
  lemma TicketsSame(s: Sys, n: Sys, events: seq<Event>)
    requires Tickets(s) && n.tickets == s.tickets && n.accepted == s.accepted && n.removed == s.removed
    requires n.queue.capacity == s.queue.capacity && Delivered(s) <= Delivered(n)
    requires n.trace == s.trace + events && forall e :: e in events ==> !e.TranscriptionQueued?
    requires forall job :: job in n.queue.pending ==> job in s.queue.pending
    requires Holds(n.worker) ==> (Holds(s.worker) && n.worker.job == s.worker.job) || n.worker.job in s.queue.pending
    requires n.owner.Notifying? ==> s.owner == n.owner
    ensures Tickets(n)
  {
    forall id | id in n.accepted ensures TicketOk(n, id) {
      TicketGrows(s, n, id);
    }
    forall e | e in n.trace && e.TranscriptionQueued? ensures PositionOk(n, e.id, e.position) {
      assert e in s.trace;
    }
    forall job | job in n.queue.pending ensures OwnAudio(n, job) {
      assert OwnAudio(s, job);
    }
  }

  lemma WorkerKeepsJobs(s: Sys, outcome: Outcome)
    requires Enabled(s, WorkerMoves(outcome))
    ensures var n := WorkerNext(s, outcome);
            && n.queue.capacity == s.queue.capacity
            && (forall job :: job in n.queue.pending ==> job in s.queue.pending)
            && (Holds(n.worker) ==>
                  (Holds(s.worker) && n.worker.job == s.worker.job) || n.worker.job in s.queue.pending)
  {
  }

  lemma TicketsWorker(s: Sys, outcome: Outcome)
    requires Tickets(s) && Enabled(s, WorkerMoves(outcome)) && Delivered(s) <= Delivered(WorkerNext(s, outcome))
    ensures Tickets(WorkerNext(s, outcome))
  {
    assert s.trace + [] == s.trace;
    WorkerKeepsJobs(s, outcome);
    TicketsSame(s, WorkerNext(s, outcome), []);
  }

  /** Steps that remove jobs without a result. */
  lemma TicketsRemoved(s: Sys, n: Sys, gone: set<SessionId>, events: seq<Event>)
    requires Tickets(s) && n.tickets == s.tickets && n.accepted == s.accepted && n.worker == s.worker
    requires n.removed == s.removed + gone && Delivered(n) == Delivered(s)
    requires Survivors(n) == Without(Survivors(s), gone)
    requires forall x :: x in Delivered(s) ==> x !in gone
    requires n.queue.capacity == s.queue.capacity && forall job :: job in n.queue.pending ==> job in s.queue.pending
    requires n.trace == s.trace + events && forall e :: e in events ==> !e.TranscriptionQueued?
    requires !n.owner.Notifying?
    ensures Tickets(n)
  {
    forall id | id in n.accepted ensures TicketOk(n, id) {
      TicketShrinks(s, n, id, gone);
    }
    forall e | e in n.trace && e.TranscriptionQueued? ensures PositionOk(n, e.id, e.position) {
      assert e in s.trace;
    }
    forall job | job in n.queue.pending ensures OwnAudio(n, job) {
      assert OwnAudio(s, job);
    }
  }

  lemma TicketsAccept(s: Sys, job: Job)
    requires Tickets(s) && Fifo(s) && s.owner.Commands? && HasRoom(s.queue) && OwnAudio(s, job)
    requires s.queue.busy <==> Holds(s.worker)
    requires forall id :: id in s.accepted ==> id < job.id
    ensures Tickets(Accept(s, job))
  {
    var n := Accept(s, job);
    FifoAccept(s, job);
    var t := n.tickets[job.id];
    assert t.done + t.ahead == Survivors(s);
    assert TicketOk(n, job.id) by {
      WithoutMembers(s.accepted, s.removed);
      WithoutNothing(t.ahead, s.removed);
    }
    forall id | id in n.accepted ensures TicketOk(n, id) {
      if id != job.id {
        assert id in s.accepted;
        TicketGrows(s, n, id);
      }
    }
    assert PositionOk(n, n.owner.id, n.owner.position);
    forall e | e in n.trace && e.TranscriptionQueued? ensures PositionOk(n, e.id, e.position) {
      assert PositionOk(s, e.id, e.position);
    }
    forall j | j in n.queue.pending ensures OwnAudio(n, j) {
      assert j == job || OwnAudio(s, j);
    }
  }

  lemma TicketsStop(s: Sys, c: Choice)
    requires Tickets(s) && Control(s) && Fifo(s) && s.owner.Commands? && c.command.Stop?
    ensures Tickets(CommandNext(s, c))
  {
    var (capture, events, job) := StoppedRecording(s.capture, c.lost, c.samples);
    var stopped := s.(capture := capture, trace := s.trace + events);
    CaptureEventsSilent(s.capture, true, true, c.lost, c.samples);
    FifoSilent(s, stopped, events);
    TicketsSame(s, stopped, events);
    if job.Some? {
      assert HasRoom(s.queue) && forall id :: id in s.accepted ==> id < job.value.id;
      assert RecordingFinished(job.value.id, job.value.samples) in events;
      TicketsAccept(stopped, job.value);
    }
  }

  lemma TicketsCancelJob(s: Sys, c: Choice)
    requires Tickets(s) && Fifo(s) && s.owner.Commands? && c.command.CancelJob?
    requires c.command.id in JobIds(s.queue.pending)
    ensures Tickets(CommandNext(s, c))
  {
    var n := CommandNext(s, c);
    var id := c.command.id;
    assert Survivors(n) == Without(Survivors(s), {id}) by {
      CancelTakesOne(s, id);
    }
    assert Delivered(n) == Delivered(s) by {
      FifoCancelJob(s, c);
    }
    assert forall x :: x in Delivered(s) ==> x !in {id} by {
      DeliveredIsNotWaiting(s);
    }
    assert forall job :: job in n.queue.pending ==> job in s.queue.pending by {
      var front, back := ErasedIds(s.queue.pending, id);
    }
    TicketsRemoved(s, n, {id}, [SessionCancelled(id)]);
  }

  lemma TicketsNotifying(s: Sys, c: Choice)
    requires Tickets(s) && Fifo(s) && s.owner.Notifying?
    ensures Tickets(HandingNext(s, c))
  {
    var n := HandingNext(s, c);
    FifoHanding(s, c);
    forall id | id in n.accepted ensures TicketOk(n, id) {
      TicketGrows(s, n, id);
    }
    forall e | e in n.trace && e.TranscriptionQueued? ensures PositionOk(n, e.id, e.position) {
      assert e in s.trace ==> PositionOk(s, e.id, e.position);
    }
    forall job | job in n.queue.pending ensures OwnAudio(n, job) {
      assert OwnAudio(s, job);
    }
  }

  lemma {:induction false} NoticesAnnounceNothing(started: seq<SessionId>, held: seq<JobResult>, fails: set<SessionId>)
    ensures forall e :: e in StartNotices(started) ==> !e.TranscriptionQueued?
    ensures forall e :: e in DropNotices(started) ==> !e.TranscriptionQueued?
    ensures forall e :: e in ResultNotices(held, fails) ==> !e.TranscriptionQueued?
    decreases |started| + |held|
  {
    if started != [] {
      NoticesAnnounceNothing(started[1..], held, fails);
    } else if held != [] {
      NoticesAnnounceNothing(started, held[1..], fails);
      assert forall e :: e in ResultNotice(held[0], fails) ==> !e.TranscriptionQueued?;
    }
  }

  lemma TicketsDrain(s: Sys, c: Choice)
    requires Tickets(s) && Fifo(s) && (s.owner.Draining? || s.owner.DrainingStarted?)
    ensures Tickets(HandingNext(s, c))
  {
    var n := HandingNext(s, c);
    FifoHanding(s, c);
    if s.owner.Draining? {
      assert s.trace + [] == s.trace;
      TicketsSame(s, n, []);
    } else {
      NoticesAnnounceNothing(s.queue.started, s.owner.held, c.clipboardFails);
      var events := StartNotices(s.queue.started) + ResultNotices(s.owner.held, c.clipboardFails);
      assert n.trace == s.trace + events;
      TicketsSame(s, n, events);
    }
  }

  lemma TicketsStopping(s: Sys, c: Choice)
    requires Tickets(s) && Fifo(s) && s.owner.Stopping?
    ensures Tickets(ShutdownNext(s, c))
  {
    var n := ShutdownNext(s, c);
    var gone := set id | id in JobIds(s.queue.pending);
    assert n.removed == s.removed + gone && n.queue.pending == [] && n.trace == s.trace + [];
    assert Delivered(n) == Delivered(s) by {
      FifoStopping(s, c);
    }
    assert Survivors(n) == Without(Survivors(s), gone) by {
      WithoutTwice(s.accepted, s.removed, gone);
    }
    assert forall x :: x in Delivered(s) ==> x !in gone by {
      DeliveredIsNotWaiting(s);
    }
    TicketsRemoved(s, n, gone, []);
  }

  lemma TicketsCancelling(s: Sys, c: Choice)
    requires Tickets(s) && s.owner.Cancelling? && Delivered(ShutdownNext(s, c)) == Delivered(s)
    ensures Tickets(ShutdownNext(s, c))
  {
    TicketsSame(s, ShutdownNext(s, c), CancelledSession(s.capture, c.lost, c.samples).1);
  }

  lemma TicketsJoining(s: Sys, c: Choice)
    requires Tickets(s) && s.owner.Joining? && Delivered(ShutdownNext(s, c)) == Delivered(s)
    ensures Tickets(ShutdownNext(s, c))
  {
    NoticesAnnounceNothing(s.owner.dropped, [], {});
    TicketsSame(s, ShutdownNext(s, c), DropNotices(s.owner.dropped));
  }

  lemma TicketsShutdown(s: Sys, c: Choice)
    requires Tickets(s) && Fifo(s) && Enabled(s, OwnerMoves(c))
    requires !s.owner.Commands? && !InLoop(s.owner) && !Handing(s.owner) && !s.owner.Stopping?
    requires s.owner.Joining? ==> Increasing(s.owner.dropped)
    ensures Tickets(ShutdownNext(s, c))
  {
    var n := ShutdownNext(s, c);
    assert Delivered(n) == Delivered(s) by {
      FifoShutdown(s, c);
    }
    if s.owner.Cancelling? {
      TicketsCancelling(s, c);
    } else if s.owner.Joining? {
      TicketsJoining(s, c);
    } else {
      assert s.trace + [] == s.trace;
      TicketsSame(s, n, []);
    }
  }

  lemma TicketsCapture(s: Sys, c: Choice)
    requires Tickets(s) && Fifo(s) && s.owner.Commands? && (c.command.Start? || c.command.CancelSession?)
    ensures Tickets(CommandNext(s, c))
  {
    var n := CommandNext(s, c);
    assert Delivered(n) == Delivered(s) by {
      FifoCommand(s, c);
    }
    TicketsSame(s, n, if c.command.Start? then StartedSession(s.capture, HasRoom(s.queue), c.opens).1
                      else CancelledSession(s.capture, c.lost, c.samples).1);
  }

  lemma TicketsCommand(s: Sys, c: Choice)
    requires Tickets(s) && Control(s) && Fifo(s) && s.owner.Commands?
    ensures Tickets(CommandNext(s, c))
  {
    if c.command.Stop? {
      TicketsStop(s, c);
    } else if c.command.CancelJob? && c.command.id in JobIds(s.queue.pending) {
      TicketsCancelJob(s, c);
    } else if c.command.Start? || c.command.CancelSession? {
      TicketsCapture(s, c);
    } else {
      assert s.trace + [] == s.trace;
      TicketsSame(s, CommandNext(s, c), []);
    }
  }

  lemma TicketsStep(s: Sys, a: Action)
    requires Tickets(s) && Control(s) && Fifo(s) && Enabled(s, a)
    requires s.owner.Joining? ==> Increasing(s.owner.dropped)
    ensures Tickets(Next(s, a))
  {
    if a.WorkerMoves? || a.SpuriousWakeup? || InLoop(s.owner) {
      FifoStep(s, a);
    }
    if a.WorkerMoves? {
      TicketsWorker(s, a.outcome);
    } else if a.SpuriousWakeup? || InLoop(s.owner) {
      assert s.trace + [] == s.trace;
      TicketsSame(s, Next(s, a), []);
    } else if s.owner.Commands? {
      TicketsCommand(s, a.choice);
    } else if s.owner.Notifying? {
      TicketsNotifying(s, a.choice);
    } else if Handing(s.owner) {
      TicketsDrain(s, a.choice);
    } else if s.owner.Stopping? {
      TicketsStopping(s, a.choice);
    } else {
      TicketsShutdown(s, a.choice);
    }
  }
}
