/** The bounded FIFO between the owner thread and the transcription worker
    (src/domains/session/transcription_queue.cpp).

    Every critical section of the queue's mutex is one function on `QueueState`;
    the class performs the same sections in place and is proved equal to them. */
module TranscriptionQueues {
  import opened Core

  /** What the mutex guards. */
  datatype QueueState = QueueState(
    capacity: nat,
    pending: seq<Job>,
    started: seq<SessionId>,
    completed: seq<JobResult>,
    busy: bool,
    stopping: bool)

  predicate HasRoom(q: QueueState) {
    !q.stopping && |q.pending| < q.capacity
  }

  /** Jobs waiting plus the one being processed. */
  function Outstanding(q: QueueState): nat {
    |q.pending| + if q.busy then 1 else 0
  }

  function Enqueued(q: QueueState, job: Job): QueueState {
    q.(pending := q.pending + [job])
  }

  /** `jobs` after erasing the first one with this id, if there is one. */
  function Erased(jobs: seq<Job>, id: SessionId): seq<Job> {
    if jobs == [] then []
    else if jobs[0].id == id then jobs[1..]
    else [jobs[0]] + Erased(jobs[1..], id)
  }

  function Taken(q: QueueState): QueueState
    requires q.pending != []
  {
    q.(pending := q.pending[1..], busy := true, started := q.started + [q.pending[0].id])
  }

  function Finished(q: QueueState, result: JobResult): QueueState {
    q.(busy := false, completed := q.completed + [result])
  }

  function Stopped(q: QueueState): QueueState {
    q.(stopping := true, pending := [])
  }

  /** Erasing splits the queue around the erased job and keeps everything else. */
  lemma {:induction false} ErasedSplits(jobs: seq<Job>, id: SessionId) returns (k: nat)
    requires id in JobIds(jobs)
    ensures k < |jobs| && jobs[k].id == id && id !in JobIds(jobs[..k])
    ensures Erased(jobs, id) == jobs[..k] + jobs[k + 1..]
  {
    if jobs[0].id == id {
      k := 0;
    } else {
      assert JobIds(jobs)[1..] == JobIds(jobs[1..]);
      var rest := ErasedSplits(jobs[1..], id);
      k := rest + 1;
      assert jobs[..k] == [jobs[0]] + jobs[1..][..rest];
      assert JobIds(jobs[..k]) == [jobs[0].id] + JobIds(jobs[1..][..rest]);
      assert jobs[1..][rest + 1..] == jobs[k + 1..];
    }
  }

  /** The same on ids; no job is invented. */
  lemma ErasedIds(jobs: seq<Job>, id: SessionId) returns (front: seq<SessionId>, back: seq<SessionId>)
    requires id in JobIds(jobs)
    ensures JobIds(jobs) == front + [id] + back && JobIds(Erased(jobs, id)) == front + back
    ensures forall job :: job in Erased(jobs, id) ==> job in jobs
  {
    var k := ErasedSplits(jobs, id);
    front, back := JobIds(jobs[..k]), JobIds(jobs[k + 1..]);
  }

  /** What the worker may have done to the queue while the owner was between two
      of its own critical sections: taken jobs from the front, in order, and
      delivered results. */
  predicate WorkerEffect(q: QueueState, n: QueueState) {
    && n.capacity == q.capacity && n.stopping == q.stopping
    && q.completed <= n.completed && |n.pending| <= |q.pending|
    && if q.stopping then n.pending == q.pending && n.started == q.started
       else
         var taken := |q.pending| - |n.pending|;
         n.pending == q.pending[taken..] && n.started == q.started + JobIds(q.pending[..taken])
  }

  /** The worker's two critical sections have that effect. */
  lemma WorkerSections(q: QueueState, result: JobResult)
    ensures WorkerEffect(q, q)
    ensures !q.stopping && q.pending != [] ==> WorkerEffect(q, Taken(q))
    ensures WorkerEffect(q, Finished(q, result))
  {
    assert JobIds(q.pending[..0]) == [];
    if q.pending != [] {
      assert JobIds(q.pending[..1]) == [q.pending[0].id];
    }
  }

  /** Once stopped, the queue stays stopped and empty. */
  lemma StoppedWorker(q: QueueState, n: QueueState)
    requires WorkerEffect(Stopped(q), n)
    ensures n.stopping && n.pending == []
  {
  }

  /** Such effects compose. */
  lemma WorkerEffectsCompose(q: QueueState, m: QueueState, n: QueueState)
    requires WorkerEffect(q, m) && WorkerEffect(m, n)
    ensures WorkerEffect(q, n)
  {
    var first, second := |q.pending| - |m.pending|, |m.pending| - |n.pending|;
    assert n.pending == q.pending[first + second..];
    assert JobIds(q.pending[..first + second]) == JobIds(q.pending[..first]) + JobIds(m.pending[..second]) by {
      assert q.pending[..first + second] == q.pending[..first] + m.pending[..second];
    }
  }

  class TranscriptionQueue {
    const capacity: nat
    var pending: seq<Job>
    var started: seq<SessionId>
    var completed: seq<JobResult>
    var busy: bool
    var stopping: bool

    ghost function State(): QueueState
      reads this
    {
      QueueState(capacity, pending, started, completed, busy, stopping)
    }

    constructor (capacity: nat)
      ensures State() == QueueState(capacity, [], [], [], false, false)
    {
      this.capacity := capacity;
      pending, started, completed := [], [], [];
      busy, stopping := false, false;
    }

    method TryEnqueue(job: Job) returns (position: Option<nat>)
      modifies this
      ensures old(HasRoom(State())) ==>
                State() == Enqueued(old(State()), job) && position == Some(Outstanding(old(State())))
      ensures !old(HasRoom(State())) ==> State() == old(State()) && position == None
    {
      if stopping || |pending| >= capacity {
        return None;
      }
      position := Some(|pending| + if busy then 1 else 0);
      pending := pending + [job];
    }

    method HasCapacity() returns (room: bool)
      ensures room <==> HasRoom(State())
    {
      room := !stopping && |pending| < capacity;
    }

    method CancelPending(id: SessionId) returns (found: bool)
      modifies this
      ensures found <==> id in old(JobIds(pending))
      ensures State() == old(State()).(pending := Erased(old(pending), id))
    {
      var i := 0;
      while i < |pending|
        invariant i <= |pending|
        invariant State() == old(State())
        invariant forall j :: 0 <= j < i ==> pending[j].id != id
        invariant Erased(pending, id) == pending[..i] + Erased(pending[i..], id)
      {
        if pending[i].id == id {
          assert JobIds(pending)[i] == id;
          assert pending[i..][1..] == pending[i + 1..];
          pending := pending[..i] + pending[i + 1..];
          return true;
        }
        assert pending[i..][1..] == pending[i + 1..];
        assert pending[..i] + [pending[i]] == pending[..i + 1];
        i := i + 1;
      }
      assert pending[..i] == pending;
      return false;
    }

    method DrainStarted() returns (ids: seq<SessionId>)
      modifies this
      ensures ids == old(started) && State() == old(State()).(started := [])
    {
      ids := started;
      started := [];
    }

    method DrainCompleted() returns (results: seq<JobResult>)
      modifies this
      ensures results == old(completed) && State() == old(State()).(completed := [])
    {
      results := completed;
      completed := [];
    }

    /** The locked part of shutdown(): refuse new work, drop what waits. */
    method BeginShutdown() returns (dropped: seq<SessionId>)
      modifies this
      ensures dropped == JobIds(old(pending)) && State() == Stopped(old(State()))
    {
      stopping := true;
      dropped := [];
      for i := 0 to |pending|
        invariant State() == old(State()).(stopping := true)
        invariant dropped == JobIds(pending[..i])
      {
        dropped := dropped + [pending[i].id];
        assert pending[..i + 1] == pending[..i] + [pending[i]];
      }
      assert pending[..|pending|] == pending;
      pending := [];
    }

    /** shutdown(): `joined` is the queue once the worker has been joined. */
    method Shutdown(joined: QueueState) returns (dropped: seq<SessionId>)
      requires WorkerEffect(Stopped(State()), joined)
      modifies this
      ensures dropped == JobIds(old(pending))
      ensures State() == joined && joined.stopping && joined.pending == []
    {
      StoppedWorker(State(), joined);
      dropped := BeginShutdown();
      WorkerRuns(joined);
    }

    /** The worker's first critical section, once its wait has ended. */
    method TakeJob() returns (job: Option<Job>)
      requires stopping || pending != []
      modifies this
      ensures old(stopping) ==> job == None && State() == old(State())
      ensures !old(stopping) ==> job == Some(old(pending)[0]) && State() == Taken(old(State()))
    {
      if stopping {
        return None;
      }
      job := Some(pending[0]);
      pending := pending[1..];
      busy := true;
      started := started + [job.value.id];
    }

    /** The worker runs while the owner is outside the lock and leaves the queue as `n`. */
    method WorkerRuns(n: QueueState)
      requires WorkerEffect(State(), n)
      modifies this
      ensures State() == n
    {
      pending, started, completed, busy := n.pending, n.started, n.completed, n.busy;
    }

    /** The worker's second critical section. */
    method FinishJob(job: Job, outcome: Outcome)
      modifies this
      ensures State() == Finished(old(State()), JobResult(job.id, outcome))
    {
      busy := false;
      completed := completed + [JobResult(job.id, outcome)];
    }
  }

  /** shutdown() is idempotent: whatever the worker did until it was joined, a second call
      finds nothing to drop and leaves only what the worker may still do. */
  method ShutdownTwice(queue: TranscriptionQueue, joined: QueueState, again: QueueState)
    returns (first: seq<SessionId>, second: seq<SessionId>)
    requires WorkerEffect(Stopped(queue.State()), joined) && WorkerEffect(joined, again)
    modifies queue
    ensures first == JobIds(old(queue.pending)) && second == []
    ensures queue.State() == again && again.stopping && again.pending == []
  {
    StoppedWorker(queue.State(), joined);
    first := queue.Shutdown(joined);
    assert Stopped(joined) == joined;
    second := queue.Shutdown(again);
  }
}
