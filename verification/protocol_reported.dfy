/** The state that clients are told, state() of src/domains/session/session_manager.cpp,
    against the transition table of src/domains/session/service_state.cpp. */
module ProtocolReported {
  import opened Core
  import opened TranscriptionQueues
  import opened Captures
  import opened SessionManagers
  import opened Protocol
  import opened ProtocolControl
  import opened ProtocolTheorems

  function Reported(s: Sys): ServiceState {
    DerivedState(s.capture.state, s.queue)
  }

  /** The reported state changes in a way the table does not allow. */
  predicate LeavesTable(s: Sys, n: Sys) {
    Reported(n) != Reported(s) && !ServiceCanMove(Reported(s), Reported(n))
  }

  /** start_session() is about to succeed. */
  predicate WillStart(s: Sys, a: Action) {
    && a.OwnerMoves? && s.owner.Commands? && a.choice.command.Start?
    && s.capture.state.Idle? && HasRoom(s.queue) && a.choice.opens
  }

  /** cancel_session(), as a command or as main's own, is about to acknowledge an error. */
  predicate WillAcknowledge(s: Sys, a: Action) {
    && a.OwnerMoves? && s.capture.state.Error?
    && ((s.owner.Commands? && a.choice.command.CancelSession?) || s.owner.Cancelling?)
  }

  lemma WorkerStepReport(s: Sys, a: Action)
    requires Control(s) && Enabled(s, a) && !a.OwnerMoves?
    ensures !LeavesTable(s, Next(s, a))
  {
    assert Outstanding(Next(s, a).queue) <= Outstanding(s.queue);
  }

  lemma StartReport(s: Sys, c: Choice)
    requires Control(s) && s.owner.Commands? && c.command.Start?
    ensures LeavesTable(s, CommandNext(s, c)) <==> Outstanding(s.queue) > 0 && WillStart(s, OwnerMoves(c))
  {
  }

  lemma StopReport(s: Sys, c: Choice)
    requires Control(s) && s.owner.Commands? && c.command.Stop?
    ensures !LeavesTable(s, CommandNext(s, c))
  {
  }

  lemma CancelReport(s: Sys, n: Sys, lost: bool, samples: seq<Sample>)
    requires n.capture == CancelledSession(s.capture, lost, samples).0 && n.queue == s.queue
    ensures LeavesTable(s, n) <==> Outstanding(s.queue) > 0 && s.capture.state.Error?
  {
  }

  lemma CancelJobReport(s: Sys, c: Choice)
    requires Control(s) && s.owner.Commands? && c.command.CancelJob?
    ensures !LeavesTable(s, CommandNext(s, c))
  {
    if c.command.id in JobIds(s.queue.pending) {
      var k := ErasedSplits(s.queue.pending, c.command.id);
    }
  }

  lemma OtherOwnerReport(s: Sys, c: Choice)
    requires Control(s) && Enabled(s, OwnerMoves(c)) && !s.owner.Commands? && !s.owner.Cancelling?
    ensures !LeavesTable(s, OwnerNext(s, c))
  {
  }

  /** The reported state leaves the table exactly when work is outstanding and a
      recording starts (Processing to Recording), or an error is acknowledged (Error to
      Processing). */
  lemma ReportedStateLeavesTable(s: Sys, capacity: nat, acts: seq<Action>, a: Action)
    requires Reached(s, capacity, acts) && Enabled(s, a)
    ensures LeavesTable(s, Next(s, a)) <==> Outstanding(s.queue) > 0 && (WillStart(s, a) || WillAcknowledge(s, a))
  {
    ReachedInv(s, capacity, acts);
    if !a.OwnerMoves? {
      WorkerStepReport(s, a);
    } else if s.owner.Commands? {
      match a.choice.command {
        case Start => StartReport(s, a.choice);
        case Stop => StopReport(s, a.choice);
        case CancelSession => CancelReport(s, Next(s, a), a.choice.lost, a.choice.samples);
        case CancelJob(_) => CancelJobReport(s, a.choice);
        case _ =>
      }
    } else if s.owner.Cancelling? {
      CancelReport(s, Next(s, a), a.choice.lost, a.choice.samples);
    } else {
      OtherOwnerReport(s, a.choice);
    }
  }

  // ----- Both moves happen, for every capacity -----

  lemma {:induction false} ExecMore(s: Sys, acts: seq<Action>, a: Action)
    requires CanExec(s, acts) && Enabled(Exec(s, acts), a)
    ensures CanExec(s, acts + [a]) && Exec(s, acts + [a]) == Next(Exec(s, acts), a)
    decreases acts
  {
    if acts == [] {
      assert (acts + [a])[1..] == [];
    } else {
      assert (acts + [a])[1..] == acts[1..] + [a];
      ExecMore(Next(s, acts[0]), acts[1..], a);
    }
  }

  /** One more step of a run. */
  lemma Then(s: Sys, capacity: nat, acts: seq<Action>, a: Action) returns (n: Sys, more: seq<Action>)
    requires Reached(s, capacity, acts) && Enabled(s, a)
    ensures n == Next(s, a) && Reached(n, capacity, more)
  {
    n, more := Next(s, a), acts + [a];
    ExecMore(Init(capacity), acts, a);
  }

  /** An owner step with a working microphone, or a lost one. */
  function Does(command: Command, lost: bool): Action {
    OwnerMoves(Choice(false, true, command, false, {}, true, lost, []))
  }

  /** The shortest run to the first command. */
  lemma FirstCommand(capacity: nat) returns (s: Sys, acts: seq<Action>)
    ensures Reached(s, capacity, acts) && s == Init(capacity).(owner := Commands, callback := true)
  {
    s, acts := Init(capacity), [];
    s, acts := Then(s, capacity, acts, Does(Query, false));
    s, acts := Then(s, capacity, acts, Does(Query, false));
    s, acts := Then(s, capacity, acts, Does(Query, false));
  }

  lemma FirstRecording(capacity: nat) returns (s: Sys, acts: seq<Action>)
    requires capacity > 0
    ensures Reached(s, capacity, acts) && s.owner.Commands? && s.worker.Checking?
    ensures s.queue == Init(capacity).queue
    ensures s.capture == Capture(ServiceState.Recording, Some(SessionRecord(1, SessionState.Recording)), Some(1), 2)
  {
    s, acts := FirstCommand(capacity);
    s, acts := Then(s, capacity, acts, Does(Start, false));
  }

  lemma FirstJob(capacity: nat) returns (s: Sys, acts: seq<Action>)
    requires capacity > 0
    ensures Reached(s, capacity, acts) && s.owner.Commands? && s.worker.Checking?
    ensures s.queue == Init(capacity).queue.(pending := [Job(1, [])])
    ensures s.capture == Capture(ServiceState.Idle, None, None, 2)
  {
    s, acts := FirstRecording(capacity);
    s, acts := Then(s, capacity, acts, Does(Command.Stop, false));
    assert s.owner.Notifying? && s.queue.pending == [] + [Job(1, [])];
    s, acts := Then(s, capacity, acts, Does(Query, false));
  }

  /** A run that records once; the worker has taken the job and the owner is handling
      commands again. */
  lemma OneJobRuns(capacity: nat) returns (s: Sys, acts: seq<Action>)
    requires capacity > 0
    ensures Reached(s, capacity, acts) && s.owner.Commands? && s.capture.state.Idle?
    ensures s.capture.recording.None? && s.queue.busy && HasRoom(s.queue)
  {
    s, acts := FirstJob(capacity);
    s, acts := Then(s, capacity, acts, WorkerMoves(SpeechError("")));
  }

  /** Processing is left for Recording. */
  lemma RecordingWhileProcessing(capacity: nat) returns (s: Sys, acts: seq<Action>, a: Action)
    requires capacity > 0
    ensures Reached(s, capacity, acts) && Enabled(s, a)
    ensures Reported(s).Processing? && Reported(Next(s, a)).Recording? && LeavesTable(s, Next(s, a))
  {
    s, acts := OneJobRuns(capacity);
    a := Does(Start, false);
  }

  /** Error is left for Processing: the device is lost during a second recording, and the
      error is acknowledged while the first job still runs. */
  lemma ErrorWhileProcessing(capacity: nat) returns (s: Sys, acts: seq<Action>, a: Action)
    requires capacity > 0
    ensures Reached(s, capacity, acts) && Enabled(s, a)
    ensures Reported(s).Error? && Reported(Next(s, a)).Processing? && LeavesTable(s, Next(s, a))
  {
    s, acts := OneJobRuns(capacity);
    s, acts := Then(s, capacity, acts, Does(Start, false));
    s, acts := Then(s, capacity, acts, Does(Command.Stop, true));
    a := Does(CancelSession, false);
  }
}
