/** What each client command does in every reachable state, said outright. */
module ProtocolCommands {
  import opened Core
  import opened Sequences
  import opened TranscriptionQueues
  import opened Captures
  import opened Traces
  import opened Protocol
  import opened ProtocolControl
  import opened ProtocolFifo
  import opened ProtocolOutcome
  import opened ProtocolTheorems

  /** start_session(): ignored unless idle; a full queue and a device that does not open are
      reported without a session and change nothing else, but the latter uses up an id;
      otherwise the next id is being recorded. */
  lemma StartDoes(s: Sys, capacity: nat, acts: seq<Action>, c: Choice)
    requires Reached(s, capacity, acts) && s.owner.Commands? && c.command.Start?
    ensures var n, id := CommandNext(s, c), s.capture.nextId;
            if !s.capture.state.Idle? then n == s
            else if |s.queue.pending| >= capacity then
              n == s.(trace := s.trace + [ErrorOccurred(None, QueuePart)])
            else if !c.opens then
              n == s.(capture := s.capture.(nextId := id + 1), trace := s.trace + [ErrorOccurred(None, AudioPart)])
            else
              n == s.(capture := Capture(ServiceState.Recording, Some(SessionRecord(id, SessionState.Recording)),
                                         Some(id), id + 1),
                      trace := s.trace + [RecordingStarted(id)])
  {
    ReachedInv(s, capacity, acts);
    CapacityIsFixed(Init(capacity), acts);
    assert s.trace + [] == s.trace;
  }

  /** stop_session(): ignored unless recording; a lost device fails the session and leaves the
      service in Error; otherwise the finished recording is queued behind everything else. */
  lemma StopDoes(s: Sys, capacity: nat, acts: seq<Action>, c: Choice)
    requires Reached(s, capacity, acts) && s.owner.Commands? && c.command.Stop?
    ensures var n := CommandNext(s, c);
            if !s.capture.state.Recording? then n == s
            else
              && s.capture.active.Some?
              && var id := s.capture.active.value.id;
                 if c.lost then
                   n == s.(capture := Capture(ServiceState.Error, Some(SessionRecord(id, SessionState.Failed)), None,
                                              s.capture.nextId),
                           trace := s.trace + [ErrorOccurred(Some(id), AudioPart)])
                 else
                   && n.queue == s.queue.(pending := s.queue.pending + [Job(id, c.samples)])
                   && n.owner == Notifying(id, |s.queue.pending| + if s.queue.busy then 1 else 0)
                   && n.trace == s.trace + [RecordingFinished(id, c.samples)]
                   && n.accepted == s.accepted + [id] && n.removed == s.removed
  {
    ReachedInv(s, capacity, acts);
    assert s.trace + [] == s.trace;
  }

  /** cancel_session(): ignored when idle; otherwise back to idle, with the recording, if
      its device is still there, finished and the session cancelled. */
  lemma CancelSessionDoes(s: Sys, capacity: nat, acts: seq<Action>, c: Choice)
    requires Reached(s, capacity, acts) && s.owner.Commands? && c.command.CancelSession?
    ensures var n := CommandNext(s, c);
            if s.capture.state.Idle? then n == s
            else
              && s.capture.active.Some?
              && var id := s.capture.active.value.id;
                 n == s.(capture := Capture(ServiceState.Idle, None, None, s.capture.nextId),
                         trace := s.trace
                                  + (if s.capture.state.Recording? && !c.lost
                                     then [RecordingFinished(id, c.samples)] else [])
                                  + [SessionCancelled(id)])
  {
    ReachedInv(s, capacity, acts);
    assert s.trace + [] == s.trace;
    if s.capture.active.Some? {
      Regroup(s.trace, [RecordingFinished(s.capture.active.value.id, c.samples)],
              [SessionCancelled(s.capture.active.value.id)]);
    }
  }

  /** cancel_job(): a waiting job leaves the queue, the others keep their order, and the
      cancellation is published; any other id is ignored. */
  lemma CancelJobDoes(s: Sys, capacity: nat, acts: seq<Action>, c: Choice)
    requires Reached(s, capacity, acts) && s.owner.Commands? && c.command.CancelJob?
    ensures var n, id := CommandNext(s, c), c.command.id;
            if id !in JobIds(s.queue.pending) then n == s
            else
              && JobIds(n.queue.pending) == Without(JobIds(s.queue.pending), {id})
              && (forall job :: job in n.queue.pending ==> job in s.queue.pending)
              && n.trace == s.trace + [SessionCancelled(id)]
              && n.removed == s.removed + {id} && id !in n.dropped && n.accepted == s.accepted
  {
    ReachedInv(s, capacity, acts);
    var id := c.command.id;
    if id in JobIds(s.queue.pending) {
      var front, back := ErasedIds(s.queue.pending, id);
      assert Increasing(front + [id] + back) && id !in s.removed by {
        FifoOrder(s);
        WaitingIsQueued(s, id);
      }
      WithoutMiddle(front, id, back);
    }
  }

  /** A job cancelled while waiting. */
  predicate Cancelled(s: Sys, id: SessionId) {
    id in s.removed && id !in s.dropped
  }

  lemma CancelledStep(s: Sys, a: Action, id: SessionId)
    requires Inv(s) && Enabled(s, a) && Cancelled(s, id)
    ensures Cancelled(Next(s, a), id)
  {
    if a.OwnerMoves? && s.owner.Stopping? && id in JobIds(s.queue.pending) {
      WaitingIsQueued(s, id);
    } else {
      RemovedStays(s, a);
    }
  }

  lemma RemovedStays(s: Sys, a: Action)
    requires Enabled(s, a)
    ensures s.removed <= Next(s, a).removed
    ensures !(a.OwnerMoves? && s.owner.Stopping?) ==> Next(s, a).dropped == s.dropped
  {
    if a.OwnerMoves? {
      if s.owner.Commands? {
        CommandRemoves(s, a.choice);
      } else if !InLoop(s.owner) && !Handing(s.owner) {
        ShutdownRemoves(s, a.choice);
      }
    }
  }

  lemma CommandRemoves(s: Sys, c: Choice)
    ensures s.removed <= CommandNext(s, c).removed && CommandNext(s, c).dropped == s.dropped
  {
  }

  lemma ShutdownRemoves(s: Sys, c: Choice)
    requires Enabled(s, OwnerMoves(c)) && !s.owner.Commands? && !InLoop(s.owner) && !Handing(s.owner)
    ensures s.removed <= ShutdownNext(s, c).removed
    ensures !s.owner.Stopping? ==> ShutdownNext(s, c).dropped == s.dropped
  {
  }

  lemma {:induction false} CancelledRun(s: Sys, acts: seq<Action>, id: SessionId)
    requires Inv(s) && CanExec(s, acts) && Cancelled(s, id)
    ensures Inv(Exec(s, acts)) && Cancelled(Exec(s, acts), id)
    decreases acts
  {
    if acts != [] {
      InvStep(s, acts[0]);
      CancelledStep(s, acts[0], id);
      CancelledRun(Next(s, acts[0]), acts[1..], id);
    }
  }

  /** A job cancelled while waiting stays cancelled: whatever happens next, it is never
      decoded, never has a result, and its history has ended with the cancellation. */
  lemma CancelledJobNeverRuns(s: Sys, capacity: nat, before: seq<Action>, after: seq<Action>, id: SessionId)
    requires Reached(s, capacity, before) && CanExec(s, after) && Cancelled(s, id)
    ensures var n := Exec(s, after);
            && PhaseOf(n.trace, id) == Ended(CancelledInQueue)
            && id !in Running(n.worker) && id !in Delivered(n) && id !in JobIds(n.queue.pending)
  {
    ReachedInv(s, capacity, before);
    CancelledRun(s, after, id);
    var n := Exec(s, after);
    assert PhaseOk(n, id);
    GoneFromPipeline(n, id);
  }

  lemma GoneFromPipeline(s: Sys, id: SessionId)
    requires Fifo(s) && id in s.removed
    ensures id !in Running(s.worker) && id !in Delivered(s) && id !in JobIds(s.queue.pending)
  {
    WithoutMembers(s.accepted, s.removed);
    var all := Delivered(s) + Running(s.worker) + JobIds(s.queue.pending);
    assert id !in all;
  }

  lemma ExecOne(s: Sys, a: Action)
    requires Enabled(s, a)
    ensures CanExec(s, [a]) && Exec(s, [a]) == Next(s, a)
  {
    var none := [a][1..];
    assert none == [] && CanExec(Next(s, a), none) && Exec(Next(s, a), none) == Next(s, a);
  }

  lemma ExecTwo(s: Sys, a: Action, b: Action)
    requires Enabled(s, a) && Enabled(Next(s, a), b)
    ensures CanExec(s, [a, b]) && Exec(s, [a, b]) == Next(Next(s, a), b)
  {
    assert [a, b][1..] == [b];
    ExecOne(Next(s, a), b);
  }

  lemma ExecThree(s: Sys, a: Action, b: Action, c: Action)
    requires Enabled(s, a) && Enabled(Next(s, a), b) && Enabled(Next(Next(s, a), b), c)
    ensures CanExec(s, [a, b, c]) && Exec(s, [a, b, c]) == Next(Next(Next(s, a), b), c)
  {
    assert [a, b, c][1..] == [b, c];
    ExecTwo(Next(s, a), b, c);
  }

  /** The preview: three owner steps from its first check lead into transcribe_partial()
      exactly when a recording is in progress, no transcription work exists and it is due. */
  lemma PreviewRunsExactlyWhen(s: Sys, c: Choice)
    requires s.owner.TickState?
    ensures var steps := [OwnerMoves(c), OwnerMoves(c), OwnerMoves(c)];
            && CanExec(s, steps)
            && (Exec(s, steps).owner.Previewing? <==>
                  && s.capture.state.Recording? && s.queue.pending == [] && !s.queue.busy && c.preview)
  {
    var a := OwnerMoves(c);
    var one := Next(s, a);
    assert one == s.(owner := if s.capture.state.Recording? then TickBusy else LoopHead);
    var two := Next(one, a);
    assert two.owner == if one.owner.LoopHead? then (if c.quit then Cancelling else Polling)
                        else if Outstanding(s.queue) > 0 then LoopHead else TickGo;
    ExecThree(s, a, a, a);
  }

  /** A poll that reports readiness leaves the counter at zero before commands are handled. */
  lemma PollClearsTheBell(s: Sys, c: Choice)
    requires s.owner.Polling? && c.ready
    ensures var a := OwnerMoves(c);
            var steps := if s.bell > 0 then [a, a] else [a];
            CanExec(s, steps) && Exec(s, steps) == s.(bell := 0, owner := Commands)
  {
    var a := OwnerMoves(c);
    if s.bell > 0 {
      ExecTwo(s, a, a);
    } else {
      ExecOne(s, a);
    }
  }

  /** The eventfd counter: one more for each ring, back to zero when the owner reads it. */
  lemma BellCountsRings(s: Sys, a: Action)
    requires Enabled(s, a)
    ensures Next(s, a).bell ==
            if a.WorkerMoves? && (s.worker.StartRing? || s.worker.FinishRing?) then s.bell + 1
            else if a.OwnerMoves? && s.owner.Waking? then 0
            else s.bell
  {
  }
}
