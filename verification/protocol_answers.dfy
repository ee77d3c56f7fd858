/** What the speech backend answers for a job is what clients are told of it: no result is
    invented, altered, lost or given to another job. */
module ProtocolAnswers {
  import opened Core
  import opened Sequences
  import opened TranscriptionQueues
  import opened Captures
  import opened Traces
  import opened Protocol
  import opened ProtocolControl
  import opened ProtocolFifo
  import opened ProtocolOutcome
  import opened ProtocolTheorems
  import opened ProtocolProgress

  /** transcribe() returns in this step. */
  predicate Returns(s: Sys, a: Action) {
    a.WorkerMoves? && s.worker.Decoding?
  }

  /** The backend's answers in a run: the job being decoded and what came back. */
  function Answers(s: Sys, acts: seq<Action>): seq<JobResult>
    requires CanExec(s, acts)
    decreases acts
  {
    if acts == [] then []
    else
      (if Returns(s, acts[0]) then [JobResult(s.worker.job.id, acts[0].outcome)] else [])
      + Answers(Next(s, acts[0]), acts[1..])
  }

  /** Results on their way to the clients: drained by the owner, waiting to be drained,
      and in the worker's hand. */
  function InFlight(s: Sys): seq<JobResult> {
    HeldBy(s.owner) + s.queue.completed + InHand(s.worker)
  }

  function HeldBy(o: Owner): seq<JobResult> {
    if o.DrainingStarted? then o.held else []
  }

  function InHand(w: Worker): seq<JobResult> {
    if w.Delivering? then [JobResult(w.job.id, w.outcome)] else []
  }

  /** The first answers are told, the others are in flight, unaltered and in order. */
  predicate Divided(told: seq<Verdict>, flight: seq<JobResult>, answers: seq<JobResult>) {
    && |flight| <= |answers|
    && answers[|answers| - |flight|..] == flight
    && told == VerdictsOf(answers[..|answers| - |flight|])
  }

  predicate Kept(s: Sys, answers: seq<JobResult>) {
    Divided(VerdictsIn(s.trace), InFlight(s), answers)
  }

  lemma DividedMore(told: seq<Verdict>, flight: seq<JobResult>, answers: seq<JobResult>, r: JobResult)
    requires Divided(told, flight, answers)
    ensures Divided(told, flight + [r], answers + [r])
  {
    var k := |answers| - |flight|;
    assert (answers + [r])[..k] == answers[..k];
    assert (answers + [r])[k..] == answers[k..] + [r];
  }

  lemma DividedTold(told: seq<Verdict>, held: seq<JobResult>, rest: seq<JobResult>, answers: seq<JobResult>)
    requires Divided(told, held + rest, answers)
    ensures Divided(told + VerdictsOf(held), rest, answers)
  {
    var k, m := |answers| - |held + rest|, |answers| - |rest|;
    assert answers[m..] == answers[k..][|held|..] == rest;
    assert answers[..m] == answers[..k] + held by {
      assert answers[k..m] == answers[k..][..|held|] == held;
    }
  }

  lemma KeptWorker(s: Sys, outcome: Outcome, answers: seq<JobResult>)
    requires Kept(s, answers) && Enabled(s, WorkerMoves(outcome))
    ensures Kept(WorkerNext(s, outcome),
                 answers + if s.worker.Decoding? then [JobResult(s.worker.job.id, outcome)] else [])
  {
    var n := WorkerNext(s, outcome);
    if s.worker.Decoding? {
      var r := JobResult(s.worker.job.id, outcome);
      assert InFlight(n) == InFlight(s) + [r];
      DividedMore(VerdictsIn(s.trace), InFlight(s), answers, r);
    } else {
      assert answers + [] == answers;
      WorkerKeepsFlight(s, outcome);
    }
  }

  lemma WorkerKeepsFlight(s: Sys, outcome: Outcome)
    requires Enabled(s, WorkerMoves(outcome)) && !s.worker.Decoding?
    ensures InFlight(WorkerNext(s, outcome)) == InFlight(s)
  {
  }

  lemma KeptDrainingStarted(s: Sys, c: Choice, answers: seq<JobResult>)
    requires Kept(s, answers) && s.owner.DrainingStarted?
    ensures Kept(HandingNext(s, c), answers)
  {
    var n := HandingNext(s, c);
    assert VerdictsIn(n.trace) == VerdictsIn(s.trace) + VerdictsOf(s.owner.held) by {
      AnnouncedVerdicts(s.trace, s.queue.started, s.owner.held, c.clipboardFails);
    }
    DrainedFlight(s, c);
    DividedTold(VerdictsIn(s.trace), s.owner.held, InFlight(n), answers);
  }

  lemma DrainedFlight(s: Sys, c: Choice)
    requires s.owner.DrainingStarted?
    ensures InFlight(s) == s.owner.held + InFlight(HandingNext(s, c))
  {
    var n := HandingNext(s, c);
    assert HeldBy(n.owner) == [] && n.queue.completed == s.queue.completed && n.worker == s.worker;
    Regroup(s.owner.held, s.queue.completed, InHand(s.worker));
    assert [] + s.queue.completed == s.queue.completed;
  }

  /** Other owner steps move no result. */
  lemma OwnerKeepsFlight(s: Sys, c: Choice)
    requires Enabled(s, OwnerMoves(c)) && !s.owner.DrainingStarted?
    ensures InFlight(OwnerNext(s, c)) == InFlight(s)
  {
    if s.owner.Commands? {
      CommandKeepsFlight(s, c);
    } else if !InLoop(s.owner) && !Handing(s.owner) {
      ShutdownKeepsFlight(s, c);
    }
  }

  lemma CommandKeepsFlight(s: Sys, c: Choice)
    requires s.owner.Commands?
    ensures InFlight(CommandNext(s, c)) == InFlight(s)
  {
  }

  lemma ShutdownKeepsFlight(s: Sys, c: Choice)
    requires Enabled(s, OwnerMoves(c)) && !s.owner.Commands? && !InLoop(s.owner) && !Handing(s.owner)
    ensures InFlight(ShutdownNext(s, c)) == InFlight(s)
  {
    assert InHand(Notified(s.worker)) == InHand(s.worker);
  }

  lemma OwnerSaysNothing(s: Sys, c: Choice)
    requires Inv(s) && Enabled(s, OwnerMoves(c)) && !s.owner.Draining? && !s.owner.DrainingStarted?
    ensures VerdictsIn(OwnerNext(s, c).trace) == VerdictsIn(s.trace)
  {
    var n := OwnerNext(s, c);
    OwnerStep(s, c);
    var events := n.trace[|s.trace|..];
    assert n.trace == s.trace + events;
    assert Delivered(n) == Delivered(s) by {
      assert s.owner.Joining? ==> Increasing(HeldDrops(s.owner));
      FifoOwner(s, c);
    }
    assert n.queue.completed == s.queue.completed && HeldIds(n.owner) == [] && HeldIds(s.owner) == [];
    NoResultNoVerdict(s.trace, events);
  }

  lemma KeptStep(s: Sys, a: Action, answers: seq<JobResult>)
    requires Inv(s) && Enabled(s, a) && Kept(s, answers)
    ensures Kept(Next(s, a), answers + if Returns(s, a) then [JobResult(s.worker.job.id, a.outcome)] else [])
  {
    match a
    case WorkerMoves(outcome) => KeptWorker(s, outcome, answers);
    case SpuriousWakeup => assert answers + [] == answers;
    case OwnerMoves(c) =>
      assert answers + [] == answers;
      KeptOwner(s, c, answers);
  }

  lemma KeptOwner(s: Sys, c: Choice, answers: seq<JobResult>)
    requires Inv(s) && Enabled(s, OwnerMoves(c)) && Kept(s, answers)
    ensures Kept(OwnerNext(s, c), answers)
  {
    if s.owner.DrainingStarted? {
      KeptDrainingStarted(s, c, answers);
    } else {
      assert InFlight(OwnerNext(s, c)) == InFlight(s) by {
        OwnerKeepsFlight(s, c);
      }
      assert VerdictsIn(OwnerNext(s, c).trace) == VerdictsIn(s.trace) by {
        if !s.owner.Draining? {
          OwnerSaysNothing(s, c);
        }
      }
    }
  }

  lemma {:induction false} KeptRun(s: Sys, acts: seq<Action>, answers: seq<JobResult>)
    requires Inv(s) && CanExec(s, acts) && Kept(s, answers)
    ensures Kept(Exec(s, acts), answers + Answers(s, acts))
    decreases acts
  {
    if acts == [] {
      assert answers + [] == answers;
    } else {
      var now := if Returns(s, acts[0]) then [JobResult(s.worker.job.id, acts[0].outcome)] else [];
      InvStep(s, acts[0]);
      KeptStep(s, acts[0], answers);
      KeptRun(Next(s, acts[0]), acts[1..], answers + now);
      Regroup(answers, now, Answers(Next(s, acts[0]), acts[1..]));
    }
  }

  // ----- Theorems -----

  /** In every run, what clients have been told, followed by what is in flight, is exactly
      what the backend answered, in order. */
  lemma ResultsAreAnswers(s: Sys, capacity: nat, acts: seq<Action>)
    requires Reached(s, capacity, acts)
    ensures Kept(s, Answers(Init(capacity), acts))
  {
    assert Inv(Init(capacity)) by {
      ReachedInv(Init(capacity), capacity, []);
    }
    assert Kept(Init(capacity), []);
    KeptRun(Init(capacity), acts, []);
    Regroup(Answers(Init(capacity), acts), [], []);
  }

  /** A transcript is published only if the backend answered it for that job, and every
      published transcript answer is published with its own text. */
  lemma TranscriptsAreAnswers(s: Sys, capacity: nat, acts: seq<Action>, id: SessionId, text: string)
    requires Reached(s, capacity, acts)
    ensures TranscriptionCompleted(id, text) in s.trace ==>
              JobResult(id, Transcript(text)) in Answers(Init(capacity), acts)
    ensures JobResult(id, Transcript(text)) in Answers(Init(capacity), acts) ==>
              TranscriptionCompleted(id, text) in s.trace || JobResult(id, Transcript(text)) in InFlight(s)
  {
    var answers := Answers(Init(capacity), acts);
    ResultsAreAnswers(s, capacity, acts);
    VerdictMeansEvent(s.trace, id, text);
    var published := |answers| - |InFlight(s)|;
    VerdictMeansResult(answers[..published], id, text);
    assert answers == answers[..published] + InFlight(s);
  }

  lemma VerdictMeansResult(results: seq<JobResult>, id: SessionId, text: string)
    ensures Verdict(id, Some(text)) in VerdictsOf(results) <==> JobResult(id, Transcript(text)) in results
  {
    var vs := VerdictsOf(results);
    if Verdict(id, Some(text)) in vs {
      var i :| 0 <= i < |vs| && vs[i] == Verdict(id, Some(text));
      assert results[i] == JobResult(id, Transcript(text));
    }
    if JobResult(id, Transcript(text)) in results {
      var i :| 0 <= i < |results| && results[i] == JobResult(id, Transcript(text));
      assert vs[i] == Verdict(id, Some(text));
    }
  }

  /** A legal history ends as transcribed exactly when a transcript is published. */
  lemma {:induction false} TranscribedMeansEvent(p: Phase, trace: seq<Event>, id: SessionId)
    requires !PhaseFrom(p, trace, id).Broken?
    ensures PhaseFrom(p, trace, id) == Ended(Transcribed) <==>
              p == Ended(Transcribed) || exists text :: TranscriptionCompleted(id, text) in trace
    decreases trace
  {
    if trace != [] {
      var e, next := trace[0], NextPhase(p, trace[0], id);
      TranscribedMeansEvent(next, trace[1..], id);
      assert trace == [e] + trace[1..];
      if next.Broken? {
        BrokenForever(trace[1..], id);
      }
      if e.TranscriptionCompleted? && e.id == id {
        assert TranscriptionCompleted(id, e.text) in trace;
      }
      forall text | TranscriptionCompleted(id, text) in trace[1..]
        ensures TranscriptionCompleted(id, text) in trace
      {
      }
    }
  }

  /** After shutdown a job ends as transcribed exactly when the backend answered it with a
      transcript. */
  lemma JobsEndAsAnswered(s: Sys, capacity: nat, acts: seq<Action>, id: SessionId)
    requires Reached(s, capacity, acts) && s.owner.Done? && id in s.accepted
    ensures PhaseOf(s.trace, id) == Ended(Transcribed) <==>
              exists text :: JobResult(id, Transcript(text)) in Answers(Init(capacity), acts)
  {
    assert InFlight(s) == [] by {
      ReachedInv(s, capacity, acts);
    }
    HistoriesAreLegal(s, capacity, acts, id);
    TranscribedMeansEvent(Unseen, s.trace, id);
    forall text
      ensures TranscriptionCompleted(id, text) in s.trace <==>
              JobResult(id, Transcript(text)) in Answers(Init(capacity), acts)
    {
      TranscriptsAreAnswers(s, capacity, acts, id, text);
    }
  }
}
