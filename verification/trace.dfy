/** Reading the published event trace: which notices and results it holds, and
    the life of one session as a client sees it. */
module Traces {
  import opened Core

  /** TranscriptionStarted ids, in publication order. */
  function StartedIn(trace: seq<Event>): seq<SessionId> {
    if trace == [] then [] else StartedOf(trace[0]) + StartedIn(trace[1..])
  }

  function StartedOf(e: Event): seq<SessionId> {
    if e.TranscriptionStarted? then [e.id] else []
  }

  /** Ids whose transcription result was published, in publication order. */
  function ResultsIn(trace: seq<Event>): seq<SessionId> {
    if trace == [] then [] else ResultOf(trace[0]) + ResultsIn(trace[1..])
  }

  function ResultOf(e: Event): seq<SessionId> {
    match e
    case TranscriptionCompleted(id, _) => [id]
    case ErrorOccurred(Some(id), SpeechPart) => [id]
    case _ => []
  }

  /** What clients learn of a job's result: its text, or that it failed. */
  datatype Verdict = Verdict(id: SessionId, text: Option<string>)

  /** The published verdicts, in publication order. */
  function VerdictsIn(trace: seq<Event>): seq<Verdict> {
    if trace == [] then [] else VerdictIn(trace[0]) + VerdictsIn(trace[1..])
  }

  function VerdictIn(e: Event): seq<Verdict> {
    match e
    case TranscriptionCompleted(id, text) => [Verdict(id, Some(text))]
    case ErrorOccurred(Some(id), SpeechPart) => [Verdict(id, None)]
    case _ => []
  }

  /** What clients should learn of these results. */
  function VerdictsOf(results: seq<JobResult>): (vs: seq<Verdict>)
    ensures |vs| == |results|
    ensures forall i :: 0 <= i < |results| ==> vs[i].id == results[i].id
    ensures forall i :: 0 <= i < |results| ==>
              vs[i].text == match results[i].outcome case Transcript(text) => Some(text) case SpeechError(_) => None
  {
    seq(|results|, i requires 0 <= i < |results| =>
      Verdict(results[i].id,
              match results[i].outcome case Transcript(text) => Some(text) case SpeechError(_) => None))
  }

  /** How an accepted job ends. */
  datatype Ending = Transcribed | FailedInSpeech | DroppedAtShutdown | CancelledInQueue

  /** A session as seen through its events. `Broken` is an impossible history: a
      second ending, a result without a start, a start without a queueing, a
      queueing without a finished recording, anything after a cancellation. */
  datatype Phase =
    | Unseen | Capturing | Captured | Faulty | Discarded
    | Queued | Started | Ended(how: Ending)
    | Broken

  /** The session never reached the queue, as far as its events say. */
  predicate BeforeQueue(p: Phase) {
    p.Unseen? || p.Capturing? || p.Captured? || p.Faulty? || p.Discarded?
  }

  /** The legal histories are the prefixes of
        recording started, finished, queued, started, completed or failed in speech;
        recording started, finished, queued, cancelled or dropped;
        recording started, perhaps finished, cancelled;
        recording started, lost, cancelled;
        recording started, finished, refused by the queue, cancelled. */
  function NextPhase(p: Phase, e: Event, id: SessionId): Phase {
    match e
    case RecordingStarted(i) =>
      if i != id then p else if p.Unseen? then Capturing else Broken
    case RecordingFinished(i, _) =>
      if i != id then p else if p.Capturing? then Captured else Broken
    case TranscriptionQueued(i, _) =>
      if i != id then p else if p.Captured? then Queued else Broken
    case TranscriptionStarted(i) =>
      if i != id then p else if p.Queued? then Started else Broken
    case TranscriptionCompleted(i, _) =>
      if i != id then p else if p.Started? then Ended(Transcribed) else Broken
    case SessionCancelled(i) =>
      if i != id then p
      else if p.Capturing? || p.Captured? || p.Faulty? then Discarded
      else if p.Queued? then Ended(CancelledInQueue) else Broken
    case ErrorOccurred(Some(i), AudioPart) =>
      if i != id then p else if p.Capturing? then Faulty else Broken
    case ErrorOccurred(Some(i), QueuePart) =>
      if i != id then p
      else if p.Captured? then Faulty
      else if p.Queued? then Ended(DroppedAtShutdown) else Broken
    case ErrorOccurred(Some(i), SpeechPart) =>
      if i != id then p else if p.Started? then Ended(FailedInSpeech) else Broken
    case _ => p
  }

  function PhaseFrom(p: Phase, trace: seq<Event>, id: SessionId): Phase
    decreases trace
  {
    if trace == [] then p else PhaseFrom(NextPhase(p, trace[0], id), trace[1..], id)
  }

  function PhaseOf(trace: seq<Event>, id: SessionId): Phase {
    PhaseFrom(Unseen, trace, id)
  }

  /** What poll_completed() publishes for the jobs the worker began. */
  function StartNotices(ids: seq<SessionId>): seq<Event> {
    if ids == [] then [] else [TranscriptionStarted(ids[0])] + StartNotices(ids[1..])
  }

  /** What one result publishes; a completed transcript may be followed by a
      clipboard failure for the same session. */
  function ResultNotice(r: JobResult, clipboardFails: set<SessionId>): seq<Event> {
    match r.outcome
    case Transcript(text) =>
      [TranscriptionCompleted(r.id, text)]
      + if r.id in clipboardFails then [ErrorOccurred(Some(r.id), ClipboardPart)] else []
    case SpeechError(_) => [ErrorOccurred(Some(r.id), SpeechPart)]
  }

  function ResultNotices(results: seq<JobResult>, clipboardFails: set<SessionId>): seq<Event> {
    if results == [] then []
    else ResultNotice(results[0], clipboardFails) + ResultNotices(results[1..], clipboardFails)
  }

  /** What shutdown() publishes for the dropped jobs. */
  function DropNotices(ids: seq<SessionId>): seq<Event> {
    if ids == [] then [] else [ErrorOccurred(Some(ids[0]), QueuePart)] + DropNotices(ids[1..])
  }

  // ----- Projections distribute over concatenation -----

  lemma {:induction false} StartedConcat(a: seq<Event>, b: seq<Event>)
    ensures StartedIn(a + b) == StartedIn(a) + StartedIn(b)
  {
    if a == [] {
      assert a + b == b;
    } else {
      assert (a + b)[0] == a[0] && (a + b)[1..] == a[1..] + b;
      StartedConcat(a[1..], b);
    }
  }

  lemma {:induction false} ResultsConcat(a: seq<Event>, b: seq<Event>)
    ensures ResultsIn(a + b) == ResultsIn(a) + ResultsIn(b)
  {
    if a == [] {
      assert a + b == b;
    } else {
      assert (a + b)[0] == a[0] && (a + b)[1..] == a[1..] + b;
      ResultsConcat(a[1..], b);
    }
  }

  lemma {:induction false} VerdictsConcat(a: seq<Event>, b: seq<Event>)
    ensures VerdictsIn(a + b) == VerdictsIn(a) + VerdictsIn(b)
  {
    if a == [] {
      assert a + b == b;
    } else {
      assert (a + b)[0] == a[0] && (a + b)[1..] == a[1..] + b;
      VerdictsConcat(a[1..], b);
    }
  }

  /** Verdicts are the results, with their text. */
  lemma {:induction false} VerdictsAreResults(trace: seq<Event>)
    ensures |VerdictsIn(trace)| == |ResultsIn(trace)|
    ensures forall i :: 0 <= i < |VerdictsIn(trace)| ==> VerdictsIn(trace)[i].id == ResultsIn(trace)[i]
  {
    if trace != [] {
      VerdictsAreResults(trace[1..]);
    }
  }

  /** A completed transcription is in the trace exactly with its own text. */
  lemma {:induction false} VerdictMeansEvent(trace: seq<Event>, id: SessionId, text: string)
    ensures Verdict(id, Some(text)) in VerdictsIn(trace) <==> TranscriptionCompleted(id, text) in trace
  {
    if trace != [] {
      VerdictMeansEvent(trace[1..], id, text);
      assert trace == [trace[0]] + trace[1..];
    }
  }

  lemma {:induction false} PhaseConcat(p: Phase, a: seq<Event>, b: seq<Event>, id: SessionId)
    ensures PhaseFrom(p, a + b, id) == PhaseFrom(PhaseFrom(p, a, id), b, id)
    decreases a
  {
    if a == [] {
      assert a + b == b;
    } else {
      assert (a + b)[0] == a[0] && (a + b)[1..] == a[1..] + b;
      PhaseConcat(NextPhase(p, a[0], id), a[1..], b, id);
    }
  }

  // ----- Publishing one more notice -----

  lemma {:induction false} StartNoticesMore(ids: seq<SessionId>, id: SessionId)
    ensures StartNotices(ids + [id]) == StartNotices(ids) + [TranscriptionStarted(id)]
  {
    if ids == [] {
      assert ids + [id] == [id] && [id][1..] == [];
    } else {
      StartNoticesMore(ids[1..], id);
      assert (ids + [id])[1..] == ids[1..] + [id];
    }
  }

  lemma {:induction false} DropNoticesMore(ids: seq<SessionId>, id: SessionId)
    ensures DropNotices(ids + [id]) == DropNotices(ids) + [ErrorOccurred(Some(id), QueuePart)]
  {
    if ids == [] {
      assert ids + [id] == [id] && [id][1..] == [];
    } else {
      DropNoticesMore(ids[1..], id);
      assert (ids + [id])[1..] == ids[1..] + [id];
    }
  }

  lemma {:induction false} ResultNoticesMore(results: seq<JobResult>, r: JobResult, fails: set<SessionId>)
    ensures ResultNotices(results + [r], fails) == ResultNotices(results, fails) + ResultNotice(r, fails)
  {
    if results == [] {
      assert results + [r] == [r] && [r][1..] == [];
    } else {
      ResultNoticesMore(results[1..], r, fails);
      assert (results + [r])[1..] == results[1..] + [r];
    }
  }

  // ----- What the notices mean -----

  lemma {:induction false} StartNoticesMean(ids: seq<SessionId>, p: Phase, id: SessionId)
    requires forall i, j :: 0 <= i < j < |ids| ==> ids[i] != ids[j]
    ensures StartedIn(StartNotices(ids)) == ids && ResultsIn(StartNotices(ids)) == []
    ensures PhaseFrom(p, StartNotices(ids), id) ==
            if id !in ids then p else if p.Queued? then Started else Broken
  {
    if ids != [] {
      var next := NextPhase(p, TranscriptionStarted(ids[0]), id);
      StartNoticesMean(ids[1..], next, id);
      assert StartNotices(ids)[1..] == StartNotices(ids[1..]);
    }
  }

  lemma {:induction false} DropNoticesMean(ids: seq<SessionId>, p: Phase, id: SessionId)
    requires forall i, j :: 0 <= i < j < |ids| ==> ids[i] != ids[j]
    ensures StartedIn(DropNotices(ids)) == [] && ResultsIn(DropNotices(ids)) == []
    ensures PhaseFrom(p, DropNotices(ids), id) ==
            if id !in ids then p
            else if p.Queued? then Ended(DroppedAtShutdown) else if p.Captured? then Faulty else Broken
  {
    if ids != [] {
      var next := NextPhase(p, ErrorOccurred(Some(ids[0]), QueuePart), id);
      DropNoticesMean(ids[1..], next, id);
      assert DropNotices(ids)[1..] == DropNotices(ids[1..]);
    }
  }

  lemma ResultNoticeMeans(r: JobResult, clipboardFails: set<SessionId>, p: Phase, id: SessionId)
    ensures var e := ResultNotice(r, clipboardFails);
            && StartedIn(e) == [] && ResultsIn(e) == [r.id]
            && PhaseFrom(p, e, id) ==
               if id != r.id then p
               else if p.Started? then Ended(if r.outcome.Transcript? then Transcribed else FailedInSpeech)
               else Broken
  {
    var e := ResultNotice(r, clipboardFails);
    var ending := NextPhase(p, e[0], id);
    PhaseConcat(p, [e[0]], e[1..], id);
    assert e == [e[0]] + e[1..];
    assert PhaseFrom(p, [e[0]], id) == ending;
    if e[1..] != [] {
      assert e[1..] == [e[1]] && PhaseFrom(ending, e[1..], id) == NextPhase(ending, e[1], id);
      assert ResultsIn(e[1..]) == ResultOf(e[1]) + ResultsIn(e[1..][1..]);
      assert StartedIn(e[1..]) == StartedOf(e[1]) + StartedIn(e[1..][1..]);
    }
  }

  lemma ResultNoticeVerdict(r: JobResult, clipboardFails: set<SessionId>)
    ensures VerdictsIn(ResultNotice(r, clipboardFails)) == VerdictsOf([r])
  {
    var e := ResultNotice(r, clipboardFails);
    VerdictsConcat([e[0]], e[1..]);
    assert e == [e[0]] + e[1..];
    assert [e[0]][1..] == [];
    if e[1..] != [] {
      assert e[1..] == [e[1]] && [e[1]][1..] == [];
    }
  }

  /** Results are published with the texts they came with. */
  lemma {:induction false} ResultNoticesVerdicts(results: seq<JobResult>, clipboardFails: set<SessionId>)
    ensures VerdictsIn(ResultNotices(results, clipboardFails)) == VerdictsOf(results)
  {
    if results != [] {
      var head, tail := ResultNotice(results[0], clipboardFails), ResultNotices(results[1..], clipboardFails);
      ResultNoticeVerdict(results[0], clipboardFails);
      ResultNoticesVerdicts(results[1..], clipboardFails);
      VerdictsConcat(head, tail);
      assert VerdictsOf(results) == VerdictsOf([results[0]]) + VerdictsOf(results[1..]);
    }
  }

  /** Events without a result carry no verdict. */
  lemma NoResultNoVerdict(trace: seq<Event>, events: seq<Event>)
    requires |ResultsIn(trace + events)| == |ResultsIn(trace)|
    ensures VerdictsIn(trace + events) == VerdictsIn(trace)
  {
    ResultsConcat(trace, events);
    VerdictsConcat(trace, events);
    VerdictsAreResults(events);
  }

  lemma {:induction false} ResultNoticesStartNothing(results: seq<JobResult>, clipboardFails: set<SessionId>)
    ensures StartedIn(ResultNotices(results, clipboardFails)) == []
  {
    if results != [] {
      ResultNoticeMeans(results[0], clipboardFails, Unseen, 0);
      ResultNoticesStartNothing(results[1..], clipboardFails);
      StartedConcat(ResultNotice(results[0], clipboardFails), ResultNotices(results[1..], clipboardFails));
    }
  }

  lemma ResultNoticesProject(results: seq<JobResult>, clipboardFails: set<SessionId>)
    ensures var e := ResultNotices(results, clipboardFails);
            StartedIn(e) == [] && ResultsIn(e) == ResultIds(results)
  {
    ResultNoticesStartNothing(results, clipboardFails);
    ResultNoticesVerdicts(results, clipboardFails);
    VerdictsAreResults(ResultNotices(results, clipboardFails));
  }

  lemma {:induction false} ResultNoticesMean(results: seq<JobResult>, clipboardFails: set<SessionId>,
                                             p: Phase, id: SessionId)
    requires forall i, j :: 0 <= i < j < |results| ==> results[i].id != results[j].id
    ensures var q := PhaseFrom(p, ResultNotices(results, clipboardFails), id);
            && (id !in ResultIds(results) ==> q == p)
            && (id in ResultIds(results) && p.Started? ==> q == Ended(Transcribed) || q == Ended(FailedInSpeech))
    decreases results
  {
    if results != [] {
      var head, tail := ResultNotice(results[0], clipboardFails), ResultNotices(results[1..], clipboardFails);
      var next := PhaseFrom(p, head, id);
      assert PhaseFrom(p, ResultNotices(results, clipboardFails), id) == PhaseFrom(next, tail, id) by {
        PhaseConcat(p, head, tail, id);
      }
      ResultNoticeMeans(results[0], clipboardFails, p, id);
      ResultNoticesMean(results[1..], clipboardFails, next, id);
      assert ResultIds(results) == [results[0].id] + ResultIds(results[1..]);
      assert id == results[0].id ==> id !in ResultIds(results[1..]);
    }
  }

  /** A failed result ends its job as a speech failure. */
  lemma {:induction false} FailedResultMeans(results: seq<JobResult>, clipboardFails: set<SessionId>,
                                             p: Phase, k: nat)
    requires forall i, j :: 0 <= i < j < |results| ==> results[i].id != results[j].id
    requires k < |results| && results[k].outcome.SpeechError? && p.Started?
    ensures PhaseFrom(p, ResultNotices(results, clipboardFails), results[k].id) == Ended(FailedInSpeech)
  {
    var head := ResultNotice(results[0], clipboardFails);
    var tail := ResultNotices(results[1..], clipboardFails);
    var id := results[k].id;
    ResultNoticeMeans(results[0], clipboardFails, p, id);
    PhaseConcat(p, head, tail, id);
    if k == 0 {
      assert id !in ResultIds(results[1..]);
      ResultNoticesMean(results[1..], clipboardFails, Ended(FailedInSpeech), id);
    } else {
      FailedResultMeans(results[1..], clipboardFails, p, k - 1);
    }
  }

  lemma UnqueuedBefore(p: Phase, e: Event, id: SessionId)
    requires BeforeQueue(NextPhase(p, e, id))
    ensures BeforeQueue(p) && id !in StartedOf(e) && id !in ResultOf(e)
  {
  }

  /** A session that never reached the queue has neither a start notice nor a result. */
  lemma {:induction false} UnqueuedHasNoNotice(p: Phase, trace: seq<Event>, id: SessionId)
    requires BeforeQueue(PhaseFrom(p, trace, id))
    ensures BeforeQueue(p) && id !in StartedIn(trace) && id !in ResultsIn(trace)
    decreases trace
  {
    if trace != [] {
      UnqueuedHasNoNotice(NextPhase(p, trace[0], id), trace[1..], id);
      UnqueuedBefore(p, trace[0], id);
    }
  }

  lemma {:induction false} StartNoticesNoVerdict(ids: seq<SessionId>)
    ensures VerdictsIn(StartNotices(ids)) == []
  {
    if ids != [] {
      StartNoticesNoVerdict(ids[1..]);
      assert StartNotices(ids)[1..] == StartNotices(ids[1..]);
    }
  }

  /** What poll_completed() tells clients of the results it drained. */
  lemma AnnouncedVerdicts(trace: seq<Event>, started: seq<SessionId>, held: seq<JobResult>, fails: set<SessionId>)
    ensures VerdictsIn(trace + StartNotices(started) + ResultNotices(held, fails)) ==
            VerdictsIn(trace) + VerdictsOf(held)
  {
    var starts, results := StartNotices(started), ResultNotices(held, fails);
    VerdictsConcat(trace, starts);
    VerdictsConcat(trace + starts, results);
    StartNoticesNoVerdict(started);
    ResultNoticesVerdicts(held, fails);
    assert VerdictsIn(trace) + [] == VerdictsIn(trace);
  }
}
