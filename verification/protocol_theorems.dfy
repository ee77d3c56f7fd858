/** What holds of every run of the daemon, for every interleaving of the owner and
    the worker and every behaviour of clients, devices and the speech backend. */
module ProtocolTheorems {
  import opened Core
  import opened Sequences
  import opened TranscriptionQueues
  import opened Captures
  import opened Traces
  import opened Protocol
  import opened ProtocolControl
  import opened ProtocolFifo
  import opened ProtocolOutcome
  import opened ProtocolTickets

  ghost predicate Inv(s: Sys) {
    Control(s) && Fifo(s) && Outcomes(s) && Tickets(s)
  }

  lemma InvStep(s: Sys, a: Action)
    requires Inv(s) && Enabled(s, a)
    ensures Inv(Next(s, a))
  {
    assert s.owner.Joining? ==> Increasing(HeldDrops(s.owner));
    ControlStep(s, a);
    FifoStep(s, a);
    OutcomesStep(s, a);
    TicketsStep(s, a);
  }

  lemma {:induction false} InvRun(s: Sys, acts: seq<Action>)
    requires Inv(s) && CanExec(s, acts)
    ensures Inv(Exec(s, acts))
    decreases acts
  {
    if acts != [] {
      InvStep(s, acts[0]);
      InvRun(Next(s, acts[0]), acts[1..]);
    }
  }

  /** `s` is the state after some run of the daemon. */
  ghost predicate Reached(s: Sys, capacity: nat, acts: seq<Action>) {
    CanExec(Init(capacity), acts) && s == Exec(Init(capacity), acts)
  }

  lemma ReachedInv(s: Sys, capacity: nat, acts: seq<Action>)
    requires Reached(s, capacity, acts)
    ensures Inv(s)
  {
    ControlInit(capacity);
    FifoInit(capacity);
    OutcomesInit(capacity);
    TicketsInit(capacity);
    InvRun(Init(capacity), acts);
  }

  /** The worker and the live preview never use the speech backend together. */
  lemma BackendHasOneUser(s: Sys, capacity: nat, acts: seq<Action>)
    requires Reached(s, capacity, acts)
    ensures !(s.worker.Decoding? && s.owner.Previewing?)
    ensures s.owner.Previewing? ==> !Holds(s.worker) && s.queue.pending == []
  {
    ReachedInv(s, capacity, acts);
  }

  /** No wake-up is lost, in either direction. */
  lemma NoWakeupIsLost(s: Sys, capacity: nat, acts: seq<Action>)
    requires Reached(s, capacity, acts)
    ensures s.owner.Polling? && (s.queue.started != [] || s.queue.completed != []) ==>
              s.bell > 0 || (s.callback && AboutToRing(s.worker))
    ensures s.worker.Asleep? && (s.queue.pending != [] || s.queue.stopping) ==>
              s.owner.Notifying? || s.owner.StopNotify?
  {
    ReachedInv(s, capacity, acts);
  }

  /** No client ever sees an impossible job history. */
  lemma HistoriesAreLegal(s: Sys, capacity: nat, acts: seq<Action>, id: SessionId)
    requires Reached(s, capacity, acts)
    ensures !PhaseOf(s.trace, id).Broken?
    ensures BeforeQueue(PhaseOf(s.trace, id)) <==> id !in s.accepted || Announcing(s.owner, id)
    ensures s.capture.active.Some? && s.capture.active.value.id == id ==>
              PhaseOf(s.trace, id) == RecordingPhase(s.capture.active.value.state)
    ensures id >= s.capture.nextId ==> PhaseOf(s.trace, id).Unseen?
  {
    ReachedInv(s, capacity, acts);
    assert PhaseOk(s, id);
  }

  /** A broken history stays broken, so no prefix of a legal trace is broken. */
  lemma {:induction false} BrokenForever(trace: seq<Event>, id: SessionId)
    ensures PhaseFrom(Broken, trace, id).Broken?
  {
    if trace != [] {
      BrokenForever(trace[1..], id);
    }
  }

  /** When the daemon has shut down, every accepted job has had exactly one ending:
      a result if it was neither cancelled nor dropped, a cancellation or a drop
      notice otherwise. */
  lemma EveryJobEnds(s: Sys, capacity: nat, acts: seq<Action>, id: SessionId)
    requires Reached(s, capacity, acts) && s.owner.Done? && id in s.accepted
    ensures PhaseOf(s.trace, id).Ended?
    ensures PhaseOf(s.trace, id).how.CancelledInQueue? <==> id in s.removed && id !in s.dropped
    ensures PhaseOf(s.trace, id).how.DroppedAtShutdown? <==> id in s.dropped
  {
    ReachedInv(s, capacity, acts);
    assert PhaseOk(s, id);
    if id !in s.removed {
      assert id in Survivors(s) by {
        WithoutMembers(s.accepted, s.removed);
      }
      assert Survivors(s) == ResultsIn(s.trace);
    }
  }

  /** The pipeline is the accepted sequence minus the removed jobs; results and
      start notices come out in id order, every result after its start. */
  lemma JobsStayInOrder(s: Sys, capacity: nat, acts: seq<Action>)
    requires Reached(s, capacity, acts)
    ensures Delivered(s) + Running(s.worker) + JobIds(s.queue.pending) == Without(s.accepted, s.removed)
    ensures Increasing(s.accepted) && Increasing(ResultsIn(s.trace)) && Increasing(StartedIn(s.trace))
    ensures ResultsIn(s.trace) <= StartedIn(s.trace)
  {
    ReachedInv(s, capacity, acts);
    FifoOrder(s);
    ResultsFollowStarts(s);
  }

  /** Room seen by start_session() is still there for stop_session(): a recording
      whose device is present is always accepted. */
  lemma StopIsNeverRefused(s: Sys, capacity: nat, acts: seq<Action>, c: Choice)
    requires Reached(s, capacity, acts)
    requires s.owner.Commands? && s.capture.state.Recording? && c.command.Stop? && !c.lost
    ensures s.capture.active.Some?
    ensures CommandNext(s, c).owner == Notifying(s.capture.active.value.id, Outstanding(s.queue))
    ensures CommandNext(s, c).queue.pending == s.queue.pending + [Job(s.capture.active.value.id, c.samples)]
  {
    ReachedInv(s, capacity, acts);
  }

  lemma CapacityStep(s: Sys, a: Action)
    requires Enabled(s, a)
    ensures Next(s, a).queue.capacity == s.queue.capacity
  {
  }

  lemma {:induction false} CapacityIsFixed(s: Sys, acts: seq<Action>)
    requires CanExec(s, acts)
    ensures Exec(s, acts).queue.capacity == s.queue.capacity
    decreases acts
  {
    if acts != [] {
      CapacityStep(s, acts[0]);
      CapacityIsFixed(Next(s, acts[0]), acts[1..]);
    }
  }

  lemma QueueIsBounded(s: Sys, capacity: nat, acts: seq<Action>)
    requires Reached(s, capacity, acts)
    ensures |s.queue.pending| <= capacity && Outstanding(s.queue) <= capacity + 1
  {
    ReachedInv(s, capacity, acts);
    CapacityIsFixed(Init(capacity), acts);
  }

  /** A job announced at position p whose result is the k-th one delivered sees,
      between its acceptance and its own result, exactly the results of the p jobs
      that were ahead of it and not removed since, in order. */
  lemma PositionIsHonoured(s: Sys, capacity: nat, acts: seq<Action>, id: SessionId, p: nat, k: nat)
    requires Reached(s, capacity, acts) && TranscriptionQueued(id, p) in s.trace
    requires k < |Delivered(s)| && Delivered(s)[k] == id
    ensures p <= capacity && id in s.tickets && p == |s.tickets[id].ahead|
    ensures var t := s.tickets[id];
            && |t.done| <= k && Delivered(s)[|t.done|..k] == Without(t.ahead, s.removed)
            && k == |t.done| + p - |Within(t.ahead, s.removed)|
  {
    ReachedInv(s, capacity, acts);
    CapacityIsFixed(Init(capacity), acts);
    assert PositionOk(s, id, p) && TicketOk(s, id);
    var t := s.tickets[id];
    WithoutAndWithin(t.ahead, s.removed);
    assert id !in s.removed && Increasing(Survivors(s)) && Delivered(s) <= Survivors(s) by {
      WithoutIncreasing(s.accepted, s.removed);
      WithoutMembers(s.accepted, s.removed);
      assert Survivors(s)[k] == id;
    }
    PlaceInLine(Survivors(s), Delivered(s), t.done, Without(t.ahead, s.removed), k);
  }

  /** Two prefixes of an increasing sequence that both reach the same element. */
  lemma PlaceInLine(all: seq<nat>, delivered: seq<nat>, done: seq<nat>, ahead: seq<nat>, k: nat)
    requires Increasing(all) && delivered <= all && k < |delivered| && done + ahead + [delivered[k]] <= all
    ensures k == |done| + |ahead| && delivered[|done|..k] == ahead
  {
    var line := done + ahead + [delivered[k]];
    var j := |done| + |ahead|;
    assert all[j] == line[j] == delivered[k] == all[k];
    assert delivered[..k] == all[..k] == line[..j] == done + ahead;
    assert delivered[|done|..k] == delivered[..k][|done|..];
  }

  /** The audio being decoded is the recording that the session itself finished. */
  lemma WorkerDecodesOwnRecording(s: Sys, capacity: nat, acts: seq<Action>)
    requires Reached(s, capacity, acts) && s.worker.Decoding?
    ensures RecordingFinished(s.worker.job.id, s.worker.job.samples) in s.trace
    ensures s.worker.job.id in s.accepted && s.worker.job.id !in s.removed
  {
    ReachedInv(s, capacity, acts);
    FifoOrder(s);
    assert OwnAudio(s, s.worker.job);
    var all := Delivered(s) + Running(s.worker) + JobIds(s.queue.pending);
    assert all[|Delivered(s)|] == s.worker.job.id;
  }

  lemma CommandMovesLegally(s: Sys, c: Choice)
    requires Control(s) && s.owner.Commands?
    ensures var n := CommandNext(s, c);
            n.capture.state != s.capture.state ==> ServiceCanMove(s.capture.state, n.capture.state)
  {
    CaptureStaysCoupled(s.capture, HasRoom(s.queue), c.opens, c.lost, c.samples);
  }

  lemma StateMovesLegally(s: Sys, a: Action)
    requires Control(s) && Enabled(s, a)
    ensures var n := Next(s, a);
            n.capture.state != s.capture.state ==> ServiceCanMove(s.capture.state, n.capture.state)
  {
    if a.OwnerMoves? {
      if s.owner.Commands? {
        CommandMovesLegally(s, a.choice);
      } else if s.owner.Cancelling? {
        CaptureStaysCoupled(s.capture, true, true, a.choice.lost, a.choice.samples);
      }
    }
  }

  /** Between operations the three capture holders agree, and every change of the
      stored state follows the transition table. */
  lemma LifecycleIsCoupled(s: Sys, capacity: nat, acts: seq<Action>, a: Action)
    requires Reached(s, capacity, acts) && Enabled(s, a)
    ensures !s.owner.Notifying? ==> Coupled(s.capture)
    ensures var n := Next(s, a);
            n.capture.state != s.capture.state ==> ServiceCanMove(s.capture.state, n.capture.state)
  {
    ReachedInv(s, capacity, acts);
    StateMovesLegally(s, a);
  }

  // ----- Shutdown -----

  /** Once shutdown has begun the worker never withdraws an abort request, and from
      the join on the request is in force. */
  lemma AbortIsNeverErased(s: Sys, capacity: nat, acts: seq<Action>, a: Action)
    requires Reached(s, capacity, acts) && Enabled(s, a) && s.queue.stopping
    ensures s.abort ==> Next(s, a).abort
    ensures s.owner.Joining? || Joined(s.owner) ==> s.abort
  {
    ReachedInv(s, capacity, acts);
  }

  function WorkerRank(w: Worker): nat {
    match w
    case Exited => 0
    case Checking => 1
    case Asleep => 2
    case FinishRing => 2
    case FinishNotice => 3
    case Delivering(_, _) => 4
    case Decoding(_) => 5
    case StartRing(_) => 6
    case StartNotice(_) => 7
  }

  function OwnerRank(o: Owner): nat {
    match o
    case StopNotify(_) => 7
    case StopAbort(_) => 6
    case Joining(_) => 5
    case Unregistering => 4
    case Draining(_) => 3
    case DrainingStarted(_, _) => 2
    case Closing => 1
    case _ => 0
  }

  function Rank(s: Sys): nat {
    OwnerRank(s.owner) + WorkerRank(s.worker)
  }

  lemma RankDrops(s: Sys, a: Action)
    requires Control(s) && ShutDown(s.owner) && Enabled(s, a)
    ensures Rank(Next(s, a)) < Rank(s) && ShutDown(Next(s, a).owner)
  {
  }

  /** Shutdown terminates: whatever the interleaving, at most Rank(s) <= 14 further
      steps are possible, given that transcribe() returns. */
  lemma {:induction false} ShutdownIsBounded(s: Sys, acts: seq<Action>)
    requires Control(s) && ShutDown(s.owner) && CanExec(s, acts)
    ensures |acts| <= Rank(s) <= 14
    decreases acts
  {
    if acts != [] {
      RankDrops(s, acts[0]);
      ControlStep(s, acts[0]);
      ShutdownIsBounded(Next(s, acts[0]), acts[1..]);
    }
  }

  lemma EnabledStep(s: Sys) returns (a: Action)
    requires Control(s) && !s.owner.Done?
    ensures Enabled(s, a)
  {
    if s.owner.Joining? && !s.worker.Exited? {
      a := WorkerMoves(SpeechError(""));
    } else {
      a := OwnerMoves(Choice(false, false, NoMore, false, {}, false, false, []));
    }
  }

  /** The daemon is never stuck before it is done. */
  lemma NeverStuck(s: Sys, capacity: nat, acts: seq<Action>)
    requires Reached(s, capacity, acts) && !s.owner.Done?
    ensures exists a :: Enabled(s, a)
  {
    ReachedInv(s, capacity, acts);
    var a := EnabledStep(s);
  }

  lemma SettledStep(s: Sys, a: Action)
    requires ShutDown(s.owner) && Enabled(s, a)
    ensures var n := Next(s, a); n.accepted == s.accepted && n.removed == s.removed
  {
  }

  /** During shutdown the set of results is settled: nothing but the running job
      can still be added. */
  lemma {:induction false} AtMostOneMoreResult(s: Sys, acts: seq<Action>)
    requires Inv(s) && ShutDown(s.owner) && CanExec(s, acts)
    ensures var n := Exec(s, acts);
            && Delivered(n) + Running(n.worker) == Delivered(s) + Running(s.worker)
            && |Delivered(n)| <= |Delivered(s)| + 1
    decreases acts
  {
    if acts != [] {
      var n := Next(s, acts[0]);
      InvStep(s, acts[0]);
      RankDrops(s, acts[0]);
      SettledStep(s, acts[0]);
      SettledPipeline(s, n);
      AtMostOneMoreResult(n, acts[1..]);
    }
  }

  lemma SettledPipeline(s: Sys, n: Sys)
    requires Fifo(s) && Fifo(n) && n.accepted == s.accepted && n.removed == s.removed
    requires s.queue.pending == [] && n.queue.pending == []
    ensures Delivered(n) + Running(n.worker) == Delivered(s) + Running(s.worker)
  {
    Regroup(Delivered(n) + Running(n.worker), [], []);
    Regroup(Delivered(s) + Running(s.worker), [], []);
  }

  // ----- The job interrupted by shutdown -----

  ghost predicate HasFailure(results: seq<JobResult>, id: SessionId) {
    exists k :: 0 <= k < |results| && results[k].id == id && results[k].outcome.SpeechError?
  }

  /** The running job can only end as a speech failure. */
  ghost predicate Doomed(s: Sys, id: SessionId) {
    || (s.owner.Joining? && s.worker.Decoding? && s.worker.job.id == id)
    || (s.owner.Joining? && s.worker.Delivering? && s.worker.job.id == id && s.worker.outcome.SpeechError?)
    || HasFailure(s.queue.completed, id)
    || (s.owner.DrainingStarted? && HasFailure(s.owner.held, id))
    || PhaseOf(s.trace, id) == Ended(FailedInSpeech)
  }

  lemma DoomedWorker(s: Sys, id: SessionId, outcome: Outcome)
    requires Control(s) && ShutDown(s.owner) && Enabled(s, WorkerMoves(outcome)) && Doomed(s, id)
    ensures Doomed(WorkerNext(s, outcome), id)
  {
    var n := WorkerNext(s, outcome);
    if s.worker.Delivering? {
      var before, after := s.queue.completed, n.queue.completed;
      assert after[|before|] == JobResult(s.worker.job.id, s.worker.outcome);
      if HasFailure(before, id) {
        var k :| 0 <= k < |before| && before[k].id == id && before[k].outcome.SpeechError?;
        assert after[k] == before[k];
      }
    }
  }

  lemma EndedStays(trace: seq<Event>, events: seq<Event>, id: SessionId, how: Ending)
    requires PhaseOf(trace, id) == Ended(how) && !PhaseOf(trace + events, id).Broken?
    ensures PhaseOf(trace + events, id) == Ended(how)
  {
    PhaseConcat(Unseen, trace, events, id);
    EndedOrBroken(how, events, id);
  }

  lemma {:induction false} EndedOrBroken(how: Ending, events: seq<Event>, id: SessionId)
    ensures PhaseFrom(Ended(how), events, id) == Ended(how) || PhaseFrom(Ended(how), events, id).Broken?
  {
    if events != [] {
      EndedOrBroken(how, events[1..], id);
      BrokenForever(events[1..], id);
    }
  }

  lemma DoomedDrain(s: Sys, id: SessionId, c: Choice)
    requires Inv(s) && s.owner.DrainingStarted? && HasFailure(s.owner.held, id)
    ensures PhaseOf(HandingNext(s, c).trace, id) == Ended(FailedInSpeech)
  {
    var started, held := s.queue.started, s.owner.held;
    var k :| 0 <= k < |held| && held[k].id == id && held[k].outcome.SpeechError?;
    assert ResultIds(held)[k] == id;
    assert Increasing(started) && Increasing(ResultIds(held)) by {
      FifoOrder(s);
    }
    HeldWereStarted(s, id);
    assert PhaseOk(s, id);
    var starts, results := StartNotices(started), ResultNotices(held, c.clipboardFails);
    StartNoticesMean(started, PhaseOf(s.trace, id), id);
    PhaseConcat(Unseen, s.trace, starts, id);
    PhaseConcat(Unseen, s.trace + starts, results, id);
    HeldDistinct(held);
    FailedResultMeans(held, c.clipboardFails, Started, k);
  }

  lemma ShutdownTraceGrows(s: Sys, c: Choice)
    requires ShutDown(s.owner) && Enabled(s, OwnerMoves(c))
    ensures s.trace <= OwnerNext(s, c).trace
  {
  }

  lemma DoomedOwner(s: Sys, id: SessionId, c: Choice)
    requires Inv(s) && ShutDown(s.owner) && Enabled(s, OwnerMoves(c)) && Doomed(s, id)
    requires !PhaseOf(OwnerNext(s, c).trace, id).Broken?
    ensures Doomed(OwnerNext(s, c), id)
  {
    var n := OwnerNext(s, c);
    if PhaseOf(s.trace, id) == Ended(FailedInSpeech) {
      ShutdownTraceGrows(s, c);
      assert n.trace == s.trace + n.trace[|s.trace|..];
      EndedStays(s.trace, n.trace[|s.trace|..], id, FailedInSpeech);
    } else if s.owner.DrainingStarted? && HasFailure(s.owner.held, id) {
      DoomedDrain(s, id, c);
    } else {
      DoomedMoves(s, id, c);
    }
  }

  lemma DoomedMoves(s: Sys, id: SessionId, c: Choice)
    requires Control(s) && ShutDown(s.owner) && Enabled(s, OwnerMoves(c)) && Doomed(s, id)
    requires PhaseOf(s.trace, id) != Ended(FailedInSpeech)
    requires s.owner.DrainingStarted? ==> !HasFailure(s.owner.held, id)
    ensures Doomed(OwnerNext(s, c), id)
  {
  }

  lemma {:induction false} DoomedRun(s: Sys, acts: seq<Action>, id: SessionId)
    requires Inv(s) && ShutDown(s.owner) && CanExec(s, acts) && Doomed(s, id)
    ensures Doomed(Exec(s, acts), id) && Inv(Exec(s, acts))
    decreases acts
  {
    if acts != [] {
      var n := Next(s, acts[0]);
      InvStep(s, acts[0]);
      RankDrops(s, acts[0]);
      assert PhaseOk(n, id);
      match acts[0] {
        case WorkerMoves(outcome) => DoomedWorker(s, id, outcome);
        case SpuriousWakeup =>
        case OwnerMoves(c) => DoomedOwner(s, id, c);
      }
      DoomedRun(n, acts[1..], id);
    }
  }

  /** A transcription still decoding when the abort has been requested ends, in every
      completed shutdown, as one speech error. */
  lemma InterruptedJobFails(s: Sys, capacity: nat, before: seq<Action>, after: seq<Action>)
    requires Reached(s, capacity, before) && s.owner.Joining? && s.worker.Decoding?
    requires CanExec(s, after) && Exec(s, after).owner.Done?
    ensures PhaseOf(Exec(s, after).trace, s.worker.job.id) == Ended(FailedInSpeech)
  {
    ReachedInv(s, capacity, before);
    DoomedRun(s, after, s.worker.job.id);
  }

  /** Shutdown as a whole, from any reachable state inside it: it takes at most 14
      more steps, and it cannot stop short of Done. */
  lemma ShutdownCompletes(s: Sys, capacity: nat, before: seq<Action>, after: seq<Action>)
    requires Reached(s, capacity, before) && ShutDown(s.owner) && CanExec(s, after)
    ensures |after| <= 14
    ensures (forall a :: !Enabled(Exec(s, after), a)) ==> Exec(s, after).owner.Done?
  {
    ReachedInv(s, capacity, before);
    ShutdownIsBounded(s, after);
    ControlRun(s, after);
    var n := Exec(s, after);
    if !n.owner.Done? {
      var a := EnabledStep(n);
    }
  }
}
