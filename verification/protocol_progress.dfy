/** Progress outside shutdown: a result the worker has handed over is published after a
    bounded number of owner steps, whatever the worker, the clients and the clock do. */
module ProtocolProgress {
  import opened Core
  import opened Sequences
  import opened TranscriptionQueues
  import opened Captures
  import opened Traces
  import opened Protocol
  import opened ProtocolControl
  import opened ProtocolFifo
  import opened ProtocolOutcome
  import opened ProtocolTheorems

  /** An owner step that serves no client command. */
  predicate IsTurn(s: Sys, a: Action) {
    a.OwnerMoves? && !s.owner.Notifying? && (s.owner.Commands? ==> a.choice.command.NoMore?)
  }

  /** How many such steps a run takes. */
  function Turns(s: Sys, acts: seq<Action>): nat
    requires CanExec(s, acts)
    decreases acts
  {
    if acts == [] then 0
    else (if IsTurn(s, acts[0]) then 1 else 0) + Turns(Next(s, acts[0]), acts[1..])
  }

  /** The most turns until what is completed now has been published. */
  function Distance(o: Owner): (d: nat)
    ensures d <= 14
  {
    match o
    case DrainingStarted(last, _) => if last then 1 else 14
    case TickState => 13
    case TickBusy => 12
    case TickGo => 11
    case Previewing => 10
    case Registering => 10
    case LoopHead => 9
    case Cancelling => 8
    case Stopping => 7
    case StopNotify(_) => 6
    case StopAbort(_) => 5
    case Polling => 5
    case Joining(_) => 4
    case Waking => 4
    case Commands => 3
    case Notifying(_, _) => 3
    case Unregistering => 3
    case Draining(_) => 2
    case Closing => 0
    case Done => 0
  }

  /** The most turns until the k-th delivered result is published. */
  function Left(s: Sys, k: nat): nat {
    var published := |ResultsIn(s.trace)|;
    if k < published then 0
    else if k < published + |HeldIds(s.owner)| then 1
    else Distance(s.owner)
  }

  lemma CommandTrace(s: Sys, c: Choice)
    requires s.owner.Commands?
    ensures s.trace <= CommandNext(s, c).trace
  {
  }

  /** A command either ends the batch or leaves the owner handling it. */
  lemma CommandStep(s: Sys, c: Choice)
    requires s.owner.Commands?
    ensures var o := CommandNext(s, c).owner;
            if c.command.NoMore? then o == Draining(false) else o.Commands? || o.Notifying?
  {
  }

  lemma LoopStep(s: Sys, c: Choice)
    requires InLoop(s.owner)
    ensures LoopNext(s, c).trace == s.trace && Distance(LoopNext(s, c).owner) < Distance(s.owner)
  {
  }

  lemma ShutdownTrace(s: Sys, c: Choice)
    requires Enabled(s, OwnerMoves(c)) && !s.owner.Commands? && !InLoop(s.owner) && !Handing(s.owner)
    ensures s.trace <= ShutdownNext(s, c).trace
  {
    if s.owner.Joining? {
      assert ShutdownNext(s, c).trace == s.trace + DropNotices(s.owner.dropped);
    } else if s.owner.Cancelling? {
      assert ShutdownNext(s, c).trace == s.trace + CancelledSession(s.capture, c.lost, c.samples).1;
    }
  }

  lemma ShutdownStep(s: Sys, c: Choice)
    requires Enabled(s, OwnerMoves(c)) && !s.owner.Commands? && !InLoop(s.owner) && !Handing(s.owner)
    ensures var n := ShutdownNext(s, c);
            !n.owner.DrainingStarted? && (Distance(n.owner) < Distance(s.owner) || Distance(n.owner) == 0)
  {
    var o := ShutdownNext(s, c).owner;
    match s.owner
    case Cancelling => assert o == Stopping;
    case Stopping => assert o == StopNotify(JobIds(s.queue.pending));
    case StopNotify(dropped) => assert o == StopAbort(dropped);
    case StopAbort(dropped) => assert o == Joining(dropped);
    case Joining(dropped) => assert o == Unregistering;
    case Unregistering => assert o == Draining(true);
    case Closing => assert o == Done;
  }

  lemma PublishedGrows(a: seq<Event>, b: seq<Event>)
    requires a <= b
    ensures |ResultsIn(a)| <= |ResultsIn(b)|
  {
    assert b == a + b[|a|..];
    ResultsConcat(a, b[|a|..]);
  }

  lemma LeftDraining(s: Sys, c: Choice, k: nat)
    requires Control(s) && Fifo(s) && (s.owner.Draining? || s.owner.DrainingStarted?) && k < |Delivered(s)|
    ensures Left(HandingNext(s, c), k) < Left(s, k) || Left(HandingNext(s, c), k) == 0
  {
    if s.owner.DrainingStarted? {
      FifoDrainingStarted(s, c);
    }
  }

  lemma LeftOwner(s: Sys, c: Choice, k: nat)
    requires Enabled(s, OwnerMoves(c)) && !s.owner.Draining? && !s.owner.DrainingStarted?
    ensures var n := OwnerNext(s, c);
            Left(n, k) <= Left(s, k) && (IsTurn(s, OwnerMoves(c)) ==> Left(n, k) < Left(s, k) || Left(n, k) == 0)
  {
    var n := OwnerNext(s, c);
    OwnerStep(s, c);
    PublishedGrows(s.trace, n.trace);
    assert HeldIds(s.owner) == [] && HeldIds(n.owner) == [];
  }

  lemma OwnerStep(s: Sys, c: Choice)
    requires Enabled(s, OwnerMoves(c)) && !s.owner.Draining? && !s.owner.DrainingStarted?
    ensures var n := OwnerNext(s, c);
            && s.trace <= n.trace && !n.owner.DrainingStarted?
            && if IsTurn(s, OwnerMoves(c)) then Distance(n.owner) < Distance(s.owner) || Distance(n.owner) == 0
               else Distance(n.owner) <= Distance(s.owner)
  {
    if s.owner.Commands? {
      CommandTrace(s, c);
      CommandStep(s, c);
    } else if InLoop(s.owner) {
      LoopStep(s, c);
    } else if !s.owner.Notifying? {
      ShutdownTrace(s, c);
      ShutdownStep(s, c);
    }
  }

  lemma LeftStep(s: Sys, a: Action, k: nat)
    requires Control(s) && Fifo(s) && Enabled(s, a) && k < |Delivered(s)|
    ensures var n := Next(s, a);
            Left(n, k) <= Left(s, k) && (IsTurn(s, a) ==> Left(n, k) < Left(s, k) || Left(n, k) == 0)
  {
    match a
    case WorkerMoves(outcome) =>
    case SpuriousWakeup =>
    case OwnerMoves(c) =>
      if s.owner.Draining? || s.owner.DrainingStarted? {
        LeftDraining(s, c, k);
      } else {
        LeftOwner(s, c, k);
      }
  }

  lemma DeliveredStep(s: Sys, a: Action)
    requires Inv(s) && Enabled(s, a)
    ensures Delivered(s) <= Delivered(Next(s, a))
  {
    assert s.owner.Joining? ==> Increasing(HeldDrops(s.owner));
    FifoStep(s, a);
  }

  lemma {:induction false} DeliveredRun(s: Sys, acts: seq<Action>)
    requires Inv(s) && CanExec(s, acts)
    ensures Delivered(s) <= Delivered(Exec(s, acts))
    decreases acts
  {
    if acts != [] {
      InvStep(s, acts[0]);
      DeliveredStep(s, acts[0]);
      DeliveredRun(Next(s, acts[0]), acts[1..]);
    }
  }

  lemma {:induction false} LeftRun(s: Sys, acts: seq<Action>, k: nat)
    requires Inv(s) && CanExec(s, acts) && k < |Delivered(s)| && Left(s, k) <= Turns(s, acts)
    ensures Left(Exec(s, acts), k) == 0
    decreases acts
  {
    if acts != [] {
      InvStep(s, acts[0]);
      DeliveredStep(s, acts[0]);
      LeftStep(s, acts[0], k);
      LeftRun(Next(s, acts[0]), acts[1..], k);
    } else {
      assert Turns(s, acts) == 0;
    }
  }

  lemma NothingLeft(s: Sys, k: nat)
    requires Control(s) && k < |Delivered(s)| && Left(s, k) == 0
    ensures k < |ResultsIn(s.trace)|
  {
  }

  /** From any reachable state, every result handed over so far has been published, in
      order, once the owner has taken 14 turns or has finished. */
  lemma ResultsReachClients(s: Sys, capacity: nat, before: seq<Action>, after: seq<Action>)
    requires Reached(s, capacity, before) && CanExec(s, after)
    requires Turns(s, after) >= 14 || Exec(s, after).owner.Done?
    ensures Delivered(s) <= ResultsIn(Exec(s, after).trace)
  {
    ReachedInv(s, capacity, before);
    var n := Exec(s, after);
    PublishedInTime(s, after);
    DeliveredRun(s, after);
    PublishedPart(n, Delivered(s));
  }

  lemma PublishedInTime(s: Sys, acts: seq<Action>)
    requires Inv(s) && CanExec(s, acts) && (Turns(s, acts) >= 14 || Exec(s, acts).owner.Done?)
    ensures |Delivered(s)| <= |ResultsIn(Exec(s, acts).trace)|
  {
    var n := Exec(s, acts);
    var k := |Delivered(s)| - 1;
    assert Control(n) by {
      InvRun(s, acts);
    }
    assert |Delivered(s)| <= |Delivered(n)| by {
      DeliveredRun(s, acts);
    }
    if k >= 0 {
      assert Left(n, k) == 0 by {
        if !n.owner.Done? {
          LeftRun(s, acts, k);
        }
      }
      NothingLeft(n, k);
    }
  }

  lemma PublishedPart(s: Sys, ids: seq<SessionId>)
    requires ids <= Delivered(s) && |ids| <= |ResultsIn(s.trace)|
    ensures ids <= ResultsIn(s.trace)
  {
    assert forall i :: 0 <= i < |ids| ==> ids[i] == Delivered(s)[i];
  }

  // ----- Quitting -----

  /** The stop flag stays set during the run. */
  predicate Quits(acts: seq<Action>) {
    forall i :: 0 <= i < |acts| && acts[i].OwnerMoves? ==> acts[i].choice.quit
  }

  /** The most turns the owner still takes once the stop flag is set. */
  function ToDone(o: Owner): (d: nat)
    ensures d <= 19
  {
    match o
    case Polling => 19
    case Waking => 18
    case Commands => 17
    case Notifying(_, _) => 17
    case Draining(last) => if last then 3 else 16
    case DrainingStarted(last, _) => if last then 2 else 15
    case TickState => 14
    case TickBusy => 13
    case TickGo => 12
    case Previewing => 11
    case Registering => 11
    case LoopHead => 10
    case Cancelling => 9
    case Stopping => 8
    case StopNotify(_) => 7
    case StopAbort(_) => 6
    case Joining(_) => 5
    case Unregistering => 4
    case Closing => 1
    case Done => 0
  }

  lemma ToDoneDrops(s: Sys, c: Choice)
    requires Enabled(s, OwnerMoves(c)) && c.quit
    ensures var o := OwnerNext(s, c).owner;
            if IsTurn(s, OwnerMoves(c)) then ToDone(o) < ToDone(s.owner) else ToDone(o) <= ToDone(s.owner)
  {
    if s.owner.Commands? {
      CommandStep(s, c);
    } else if InLoop(s.owner) {
      QuitLoop(s, c);
    } else if !Handing(s.owner) {
      QuitShutdown(s, c);
    }
  }

  lemma QuitLoop(s: Sys, c: Choice)
    requires InLoop(s.owner) && c.quit
    ensures ToDone(LoopNext(s, c).owner) < ToDone(s.owner)
  {
  }

  lemma QuitShutdown(s: Sys, c: Choice)
    requires Enabled(s, OwnerMoves(c)) && !s.owner.Commands? && !InLoop(s.owner) && !Handing(s.owner)
    ensures ToDone(ShutdownNext(s, c).owner) < ToDone(s.owner)
  {
    var o := ShutdownNext(s, c).owner;
    match s.owner
    case Cancelling => assert o == Stopping;
    case Stopping => assert o == StopNotify(JobIds(s.queue.pending));
    case StopNotify(dropped) => assert o == StopAbort(dropped);
    case StopAbort(dropped) => assert o == Joining(dropped);
    case Joining(dropped) => assert o == Unregistering;
    case Unregistering => assert o == Draining(true);
    case Closing => assert o == Done;
  }

  /** Once the stop flag is set the daemon ends: from any state the owner takes at most 19
      more steps besides client commands, and after that many it has finished. */
  lemma {:induction false} QuitEndsTheDaemon(s: Sys, acts: seq<Action>)
    requires CanExec(s, acts) && Quits(acts)
    ensures Turns(s, acts) + ToDone(Exec(s, acts).owner) <= ToDone(s.owner) <= 19
    ensures Turns(s, acts) >= 19 ==> Exec(s, acts).owner.Done?
    decreases acts
  {
    if acts != [] {
      var n, rest := Next(s, acts[0]), acts[1..];
      if acts[0].OwnerMoves? {
        ToDoneDrops(s, acts[0].choice);
      }
      QuitEndsTheDaemon(n, rest);
    }
  }
}
