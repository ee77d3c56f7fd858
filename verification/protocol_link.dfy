/** The session manager's operations, as proved of the object, are what the
    interleaved protocol does step by step around arbitrary worker activity. */
module ProtocolLink {
  import opened Core
  import opened TranscriptionQueues
  import opened Captures
  import opened Traces
  import opened Protocol

  predicate WorkerOnly(acts: seq<Action>) {
    forall i :: 0 <= i < |acts| ==> !acts[i].OwnerMoves?
  }

  /** A worker step leaves the queue alone or is one of its two critical sections. */
  lemma WorkerStepQueue(s: Sys, a: Action)
    requires Enabled(s, a) && !a.OwnerMoves?
    ensures var n := Next(s, a).queue;
            || n == s.queue
            || (!s.queue.stopping && s.queue.pending != [] && n == Taken(s.queue))
            || (s.worker.Delivering? && n == Finished(s.queue, JobResult(s.worker.job.id, s.worker.outcome)))
  {
  }

  lemma WorkerStepEffect(s: Sys, a: Action)
    requires Enabled(s, a) && !a.OwnerMoves?
    ensures WorkerEffect(s.queue, Next(s, a).queue)
  {
    WorkerStepQueue(s, a);
    WorkerSections(s.queue, if s.worker.Delivering? then JobResult(s.worker.job.id, s.worker.outcome)
                            else JobResult(0, SpeechError("")));
  }

  /** Worker activity has the effect on the queue that the object's contract allows,
      and touches neither owner, capture nor trace. */
  lemma {:induction false} WorkerActivity(s: Sys, acts: seq<Action>)
    requires CanExec(s, acts) && WorkerOnly(acts)
    ensures var n := Exec(s, acts);
            && WorkerEffect(s.queue, n.queue)
            && n.owner == s.owner && n.capture == s.capture && n.trace == s.trace
    decreases acts
  {
    if acts == [] {
      WorkerSections(s.queue, JobResult(0, SpeechError("")));
    } else {
      var m := Next(s, acts[0]);
      var n := Exec(m, acts[1..]);
      WorkerActivity(m, acts[1..]);
      assert WorkerEffect(s.queue, n.queue) by {
        WorkerStepEffect(s, acts[0]);
        WorkerEffectsCompose(s.queue, m.queue, n.queue);
      }
    }
  }

  /** poll_completed(): drain_completed, any worker activity, drain_started. The
      result is the contract of SessionManager.PollCompleted. */
  lemma PollCompletedIsInterleaved(s: Sys, acts: seq<Action>, c: Choice)
    requires s.owner.Draining? && WorkerOnly(acts) && CanExec(HandingNext(s, c), acts)
    ensures var between := Exec(HandingNext(s, c), acts);
            && between.owner == DrainingStarted(s.owner.last, s.queue.completed)
            && WorkerEffect(s.queue.(completed := []), between.queue)
            && var n := HandingNext(between, c);
               && n.queue == between.queue.(started := [])
               && n.trace == s.trace + StartNotices(between.queue.started)
                             + ResultNotices(s.queue.completed, c.clipboardFails)
  {
    WorkerActivity(HandingNext(s, c), acts);
  }

  /** stop_session(): the recording is enqueued, the worker may already take it, then
      the worker is notified and the position announced, as in
      SessionManager.StopSession. */
  lemma StopSessionIsInterleaved(s: Sys, acts: seq<Action>, c: Choice)
    requires s.owner.Commands? && c.command.Stop? && WorkerOnly(acts) && CanExec(CommandNext(s, c), acts)
    requires StoppedRecording(s.capture, c.lost, c.samples).2.Some? && HasRoom(s.queue)
    ensures var (capture, events, job) := StoppedRecording(s.capture, c.lost, c.samples);
            var between := Exec(CommandNext(s, c), acts);
            && WorkerEffect(Enqueued(s.queue, job.value), between.queue)
            && between.owner == Notifying(job.value.id, Outstanding(s.queue))
            && var n := HandingNext(between, c);
               && n.capture == HandedOver(capture) && n.queue == between.queue && n.owner.Commands?
               && n.trace == s.trace + events + [TranscriptionQueued(job.value.id, Outstanding(s.queue))]
  {
    WorkerActivity(CommandNext(s, c), acts);
  }

  /** Inside TranscriptionQueue::shutdown(), after its locked section. */
  predicate InShutdown(o: Owner, dropped: seq<SessionId>) {
    o == StopNotify(dropped) || o == StopAbort(dropped) || o == Joining(dropped)
  }

  lemma {:induction false} JoinedForGood(s: Sys, acts: seq<Action>)
    requires Joined(s.owner) && CanExec(s, acts)
    ensures Joined(Exec(s, acts).owner)
    decreases acts
  {
    if acts != [] {
      JoinedForGood(Next(s, acts[0]), acts[1..]);
    }
  }

  lemma WorkerKeepsOwner(s: Sys, a: Action)
    requires Enabled(s, a) && !a.OwnerMoves?
    ensures var n := Next(s, a); n.owner == s.owner && n.trace == s.trace && n.capture == s.capture
  {
  }

  lemma WorkerIdles(q: QueueState, n: QueueState)
    requires n == q
    ensures WorkerEffect(q, n)
  {
    WorkerSections(q, JobResult(0, SpeechError("")));
  }

  lemma OwnerWaits(s: Sys, c: Choice, dropped: seq<SessionId>)
    requires InShutdown(s.owner, dropped) && InShutdown(ShutdownNext(s, c).owner, dropped)
    ensures var n := ShutdownNext(s, c); n.queue == s.queue && n.trace == s.trace && n.capture == s.capture
  {
  }

  lemma OwnerBeginsAndEnds(s: Sys, c: Choice)
    requires s.owner.Stopping? || s.owner.Joining?
    ensures var n := ShutdownNext(s, c);
            if s.owner.Stopping? then
              && n == s.(queue := Stopped(s.queue), removed := n.removed, dropped := n.dropped, owner := n.owner)
              && n.owner == StopNotify(JobIds(s.queue.pending))
            else n == s.(trace := s.trace + DropNotices(s.owner.dropped), owner := Unregistering)
  {
  }

  lemma ShutdownStepEffect(s: Sys, a: Action, dropped: seq<SessionId>)
    requires InShutdown(s.owner, dropped) && Enabled(s, a) && InShutdown(Next(s, a).owner, dropped)
    ensures WorkerEffect(s.queue, Next(s, a).queue)
    ensures Next(s, a).trace == s.trace && Next(s, a).capture == s.capture
  {
    if a.OwnerMoves? {
      var n := ShutdownNext(s, a.choice);
      assert Next(s, a) == n;
      OwnerWaits(s, a.choice, dropped);
      WorkerIdles(s.queue, n.queue);
    } else {
      WorkerStepEffect(s, a);
      WorkerKeepsOwner(s, a);
    }
  }

  /** Notify, abort and wait for the worker, interleaved with it in any way. */
  lemma {:induction false} ShutdownWaits(s: Sys, acts: seq<Action>, dropped: seq<SessionId>)
    requires InShutdown(s.owner, dropped) && CanExec(s, acts) && Exec(s, acts).owner.Joining?
    ensures var n := Exec(s, acts);
            && WorkerEffect(s.queue, n.queue) && n.owner == Joining(dropped)
            && n.trace == s.trace && n.capture == s.capture
    decreases acts
  {
    if acts == [] {
      WorkerSections(s.queue, JobResult(0, SpeechError("")));
    } else {
      var m := Next(s, acts[0]);
      if Joined(m.owner) {
        JoinedForGood(m, acts[1..]);
      }
      ShutdownWaits(m, acts[1..], dropped);
      ShutdownStepEffect(s, acts[0], dropped);
      WorkerEffectsCompose(s.queue, m.queue, Exec(m, acts[1..]).queue);
    }
  }

  /** shutdown(): from the locked section to the drop notices, whatever the worker
      does until it is joined, as in SessionManager.Shutdown. */
  lemma ShutdownIsInterleaved(s: Sys, acts: seq<Action>, c: Choice)
    requires s.owner.Stopping? && CanExec(ShutdownNext(s, c), acts) && Exec(ShutdownNext(s, c), acts).owner.Joining?
    ensures var joined := Exec(ShutdownNext(s, c), acts);
            && WorkerEffect(Stopped(s.queue), joined.queue)
            && var n := ShutdownNext(joined, c);
               && n.queue == joined.queue && n.queue.stopping && n.queue.pending == []
               && n.capture == s.capture && n.trace == s.trace + DropNotices(JobIds(s.queue.pending))
  {
    var begun := ShutdownNext(s, c);
    OwnerBeginsAndEnds(s, c);
    ShutdownWaits(begun, acts, JobIds(s.queue.pending));
    var joined := Exec(begun, acts);
    StoppedWorker(s.queue, joined.queue);
    OwnerBeginsAndEnds(joined, c);
  }
}
