/** Values shared by every part of the daemon: identifiers, states and the
    events published on the event bus. */
module Core {

  datatype Option<+T> = None | Some(value: T)

  type SessionId = nat

  /** One mono PCM sample; its numeric value plays no part in any proof. */
  type Sample = real

  /** States of the whole service. */
  datatype ServiceState = Idle | Recording | Processing | Error

  /** States of one session. */
  datatype SessionState = Created | Recording | Processing | Completed | Failed

  /** The component named by an ErrorOccurred event. */
  datatype Component = AudioPart | QueuePart | SpeechPart | ClipboardPart

  datatype Event =
    | RecordingStarted(id: SessionId)
    | RecordingFinished(id: SessionId, samples: seq<Sample>)
    | TranscriptionQueued(id: SessionId, position: nat)
    | TranscriptionStarted(id: SessionId)
    | TranscriptionCompleted(id: SessionId, text: string)
    | ErrorOccurred(session: Option<SessionId>, component: Component)
    | SessionCancelled(id: SessionId)

  /** What the speech backend answers for one recording. */
  datatype Outcome = Transcript(text: string) | SpeechError(message: string)

  /** A finished recording waiting to be transcribed. */
  datatype Job = Job(id: SessionId, samples: seq<Sample>)

  datatype JobResult = JobResult(id: SessionId, outcome: Outcome)

  function JobIds(jobs: seq<Job>): (ids: seq<SessionId>)
    ensures |ids| == |jobs|
    ensures forall i :: 0 <= i < |jobs| ==> ids[i] == jobs[i].id
  {
    seq(|jobs|, i requires 0 <= i < |jobs| => jobs[i].id)
  }

  function ResultIds(results: seq<JobResult>): (ids: seq<SessionId>)
    ensures |ids| == |results|
    ensures forall i :: 0 <= i < |results| ==> ids[i] == results[i].id
  {
    seq(|results|, i requires 0 <= i < |results| => results[i].id)
  }
}
