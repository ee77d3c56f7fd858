/** Who is connected after a poll, and who is about to be disconnected: a healthy client
    stays, and only what really failed is removed. */
module IpcConnections {
  import opened Framing
  import opened IpcServices
  import opened IpcTheorems

  /** The read ends the connection: the peer has gone, the read failed, or what follows the
      last newline has grown beyond 2^20 bytes. */
  predicate Lost(r: Read, buffer: string) {
    match r.got
    case EndOfStream => true
    case ReadError => true
    case Nothing => false
    case Bytes(data) => |Rest(buffer + data)| > 0x10_0000
  }

  /** One of the reads ends the connection behind `fd`. */
  ghost predicate LostIn(incoming: seq<Read>, fd: Fd, buffer: string) {
    exists i :: 0 <= i < |incoming| && incoming[i].fd == fd && Lost(incoming[i], buffer)
  }

  lemma ReadOneAsks(env: Env, s: Service, r: Read)
    requires r.fd in s.buffers
    ensures ReadOne(env, s, r).1 <==> Lost(r, s.buffers[r.fd])
    ensures forall fd :: fd in s.buffers && fd != r.fd ==>
              fd in ReadOne(env, s, r).0.buffers && ReadOne(env, s, r).0.buffers[fd] == s.buffers[fd]
    ensures ReadOne(env, s, r).0.buffers.Keys == s.buffers.Keys && ReadOne(env, s, r).0.conn == s.conn
  {
    if r.got.Bytes? {
      ReactionKeeps(env, Received(s, r.fd, r.got.data), r.fd, Lines(BufferOf(s, r.fd) + r.got.data));
    }
  }

  /** Reads concern their own client only. */
  lemma {:induction false} ReadAllKeeps(env: Env, s: Service, incoming: seq<Read>)
    requires forall i :: 0 <= i < |incoming| ==> incoming[i].fd in s.buffers
    ensures var t := ReadAll(env, s, incoming).0;
            && t.buffers.Keys == s.buffers.Keys && t.conn == s.conn
            && forall fd :: fd in s.buffers && !WasRead(incoming, fd) ==> t.buffers[fd] == s.buffers[fd]
  {
    if incoming != [] {
      var front, r := incoming[..|incoming| - 1], incoming[|incoming| - 1];
      ReadAllKeeps(env, s, front);
      ReadOneAsks(env, ReadAll(env, s, front).0, r);
      forall fd | !WasRead(incoming, fd) ensures !WasRead(front, fd) && fd != r.fd {
        WasReadMore(incoming, fd);
      }
    }
  }

  lemma WasReadMore(incoming: seq<Read>, fd: Fd)
    requires incoming != []
    ensures WasRead(incoming, fd) <==> WasRead(incoming[..|incoming| - 1], fd) || incoming[|incoming| - 1].fd == fd
  {
    var front := incoming[..|incoming| - 1];
    if WasRead(front, fd) {
      var i :| 0 <= i < |front| && front[i].fd == fd;
      assert incoming[i].fd == fd;
    }
  }

  lemma LostInMore(incoming: seq<Read>, fd: Fd, buffer: string)
    requires incoming != []
    ensures var r := incoming[|incoming| - 1];
            LostIn(incoming, fd, buffer) <==>
              LostIn(incoming[..|incoming| - 1], fd, buffer) || (r.fd == fd && Lost(r, buffer))
  {
    var front := incoming[..|incoming| - 1];
    if LostIn(front, fd, buffer) {
      var i :| 0 <= i < |front| && front[i].fd == fd && Lost(front[i], buffer);
      assert incoming[i] == front[i];
    }
  }

  /** The clients given up by the read loop are exactly those whose read ended them. */
  lemma {:induction false} ReadAllGone(env: Env, s: Service, incoming: seq<Read>, fd: Fd)
    requires forall i :: 0 <= i < |incoming| ==> incoming[i].fd in s.buffers
    requires forall i, j :: 0 <= i < j < |incoming| ==> incoming[i].fd != incoming[j].fd
    ensures fd in ReadAll(env, s, incoming).1 <==> fd in s.buffers && LostIn(incoming, fd, s.buffers[fd])
  {
    if incoming != [] {
      var front, r := incoming[..|incoming| - 1], incoming[|incoming| - 1];
      var t := ReadAll(env, s, front).0;
      ReadAllGone(env, s, front, fd);
      assert r.fd in t.buffers && t.buffers[r.fd] == s.buffers[r.fd] by {
        ReadAllKeeps(env, s, front);
        assert !WasRead(front, r.fd);
      }
      ReadOneAsks(env, t, r);
      if fd in s.buffers {
        LostInMore(incoming, fd, s.buffers[fd]);
      }
    }
  }

  lemma {:induction false} ClosingKeepsConnections(s: Service, fds: seq<Fd>)
    ensures var t := ClosedAll(s, fds);
            forall fd :: fd in s.conn && fd !in fds ==> fd in t.conn && t.conn[fd] == s.conn[fd]
  {
    if fds != [] {
      var front, last := fds[..|fds| - 1], fds[|fds| - 1];
      ClosingKeepsConnections(s, front);
      assert fds == front + [last];
    }
  }

  lemma {:induction false} AcceptingKeepsConnections(s: Service, fds: seq<Fd>)
    ensures var t := AcceptedAll(s, fds);
            && t.log == s.log
            && (forall fd :: fd in s.conn && fd !in fds ==> fd in t.conn && t.conn[fd] == s.conn[fd])
            && (forall fd :: fd in s.buffers && fd !in fds ==> fd in t.buffers && t.buffers[fd] == s.buffers[fd])
  {
    if fds != [] {
      var front, last := fds[..|fds| - 1], fds[|fds| - 1];
      AcceptingKeepsConnections(s, front);
      assert fds == front + [last];
    }
  }

  /** The client is there when the poll has carried out the deferred disconnects and
      accepted the waiting connections. */
  predicate Present(s: Service, input: Input, fd: Fd) {
    (fd in s.buffers && fd !in s.pending) || (input.ready && fd in input.accepts)
  }

  lemma PresentMeans(env: Env, s: Service, input: Input, fd: Fd)
    requires Inv(env, s) && ValidInput(s, input) && input.ready
    ensures var a := AcceptedAll(Flushed(s), input.accepts);
            && (fd in a.buffers <==> Present(s, input, fd))
            && (fd in s.buffers && fd !in s.pending ==> fd in a.buffers && a.buffers[fd] == s.buffers[fd])
  {
    ClosedAllInv(env, s, s.pending);
    AcceptedKeys(Flushed(s), input.accepts);
    AcceptingKeepsConnections(Flushed(s), input.accepts);
  }

  /** In every run: a client present in a poll is still connected after it, unless its own
      read ended the connection. */
  lemma HealthyClientsStay(env: Env, s: Service, ops: seq<Op>, input: Input, fd: Fd)
    requires Reached(env, s, ops) && ValidInput(s, input)
    ensures fd in Polled(env, s, input).buffers <==>
              && Present(s, input, fd)
              && !(input.ready && fd in s.buffers && LostIn(input.incoming, fd, s.buffers[fd]))
  {
    ReachedInv(env, s, ops);
    FlushedInv(env, s);
    ClosedAllInv(env, s, s.pending);
    if input.ready {
      var a := AcceptedAll(Flushed(s), input.accepts);
      AcceptedAllInv(env, Flushed(s), input.accepts);
      PresentMeans(env, s, input, fd);
      ReadersPresent(env, s, input);
      var (t, gone) := ReadAll(env, a, input.incoming);
      ReadAllGone(env, a, input.incoming, fd);
      ReadAllKeeps(env, a, input.incoming);
      ReadAllInv(env, a, input.incoming);
      ClosedAllInv(env, t, gone);
      NewClientsAreNotRead(env, s, input, fd);
    }
  }

  lemma ReadersPresent(env: Env, s: Service, input: Input)
    requires Inv(env, s) && ValidInput(s, input) && input.ready
    ensures var a := AcceptedAll(Flushed(s), input.accepts);
            forall i :: 0 <= i < |input.incoming| ==> input.incoming[i].fd in a.buffers
  {
    AcceptedKeys(Flushed(s), input.accepts);
  }

  /** Descriptors reported readable were connected before the poll accepted anybody. */
  lemma NewClientsAreNotRead(env: Env, s: Service, input: Input, fd: Fd)
    requires Inv(env, s) && ValidInput(s, input)
    ensures WasRead(input.incoming, fd) ==> fd in s.buffers && fd !in s.pending
    ensures forall buffer :: LostIn(input.incoming, fd, buffer) ==> WasRead(input.incoming, fd)
  {
    ClosedAllInv(env, s, s.pending);
  }

  /** And it is the same connection, not another one on the same descriptor. */
  lemma SurvivorsKeepTheirConnection(env: Env, s: Service, ops: seq<Op>, input: Input, fd: Fd)
    requires Reached(env, s, ops) && ValidInput(s, input)
    requires fd in s.buffers && fd !in s.pending && fd in Polled(env, s, input).buffers
    ensures fd in s.conn && fd in Polled(env, s, input).conn && Polled(env, s, input).conn[fd] == s.conn[fd]
  {
    ReachedInv(env, s, ops);
    HealthyClientsStay(env, s, ops, input, fd);
    ClosingKeepsConnections(s, s.pending);
    if input.ready {
      var a := AcceptedAll(Flushed(s), input.accepts);
      assert fd !in input.accepts && fd in a.buffers by {
        ClosedAllInv(env, s, s.pending);
        PresentMeans(env, s, input, fd);
      }
      AcceptingKeepsConnections(Flushed(s), input.accepts);
      ReadersPresent(env, s, input);
      ReadAllKeeps(env, a, input.incoming);
      ReadAllGone(env, a, input.incoming, fd);
      ClosingKeepsConnections(ReadAll(env, a, input.incoming).0, ReadAll(env, a, input.incoming).1);
      PresentMeans(env, s, input, fd);
    }
  }

  // ----- Deferred disconnects -----

  /** A write to `fd` failed while lines number `from` up to `to` were answered. */
  ghost predicate FailedDuring(env: Env, from: nat, to: nat, fd: Fd) {
    exists m: nat :: from <= m < to && fd in env.fails(m)
  }

  lemma FailedSplits(env: Env, from: nat, mid: nat, to: nat, fd: Fd)
    requires from <= mid <= to
    ensures FailedDuring(env, from, to, fd) <==> FailedDuring(env, from, mid, fd) || FailedDuring(env, mid, to, fd)
  {
  }

  lemma {:induction false} ReactedPending(env: Env, s: Service, fd: Fd, lines: seq<string>, client: Fd)
    ensures var t := ReactedAll(env, s, fd, lines);
            && |t.log| == |s.log| + |lines|
            && (client in t.pending <==>
                  client in s.pending || (client in s.buffers && FailedDuring(env, |s.log|, |t.log|, client)))
  {
    if lines != [] {
      var front, last := lines[..|lines| - 1], lines[|lines| - 1];
      ReactedPending(env, s, fd, front, client);
      ReactionKeeps(env, s, fd, front);
      var t := ReactedAll(env, s, fd, front);
      var routed := t.(subscribed := Subscriptions(t.subscribed, fd, env.kind(last)),
                       log := t.log + [Delivery(ConnOf(t, fd), last)]);
      MarkedExactly(routed, env.fails(|t.log|), client);
      MarkingKeeps(routed, env.fails(|t.log|));
      FailedSplits(env, |s.log|, |t.log|, |t.log| + 1, client);
      assert FailedDuring(env, |t.log|, |t.log| + 1, client) <==> client in env.fails(|t.log|);
    }
  }

  lemma {:induction false} ReadAllPending(env: Env, s: Service, incoming: seq<Read>, client: Fd)
    requires forall i :: 0 <= i < |incoming| ==> incoming[i].fd in s.buffers
    ensures var t := ReadAll(env, s, incoming).0;
            && |s.log| <= |t.log|
            && (client in t.pending <==>
                  client in s.pending || (client in s.buffers && FailedDuring(env, |s.log|, |t.log|, client)))
  {
    if incoming != [] {
      var front, r := incoming[..|incoming| - 1], incoming[|incoming| - 1];
      ReadAllPending(env, s, front, client);
      ReadAllKeeps(env, s, front);
      var t := ReadAll(env, s, front).0;
      if r.got.Bytes? {
        var base, lines := Received(t, r.fd, r.got.data), Lines(BufferOf(t, r.fd) + r.got.data);
        ReactedPending(env, base, r.fd, lines, client);
        FailedSplits(env, |s.log|, |t.log|, |t.log| + |lines|, client);
      }
    }
  }

  /** In every run: after a poll a client is marked for the next one exactly if it was
      present and a write to it failed while this poll's lines were answered. */
  lemma MarkedExactlyOnFailure(env: Env, s: Service, ops: seq<Op>, input: Input, fd: Fd)
    requires Reached(env, s, ops) && ValidInput(s, input)
    ensures var n := Polled(env, s, input);
            && |s.log| <= |n.log|
            && (fd in n.pending <==> Present(s, input, fd) && FailedDuring(env, |s.log|, |n.log|, fd))
  {
    ReachedInv(env, s, ops);
    ClosingKeepsLog(s, s.pending);
    if input.ready {
      var a := AcceptedAll(Flushed(s), input.accepts);
      PresentMeans(env, s, input, fd);
      ReadersPresent(env, s, input);
      AcceptedKeys(Flushed(s), input.accepts);
      AcceptingKeepsConnections(Flushed(s), input.accepts);
      ReadAllPending(env, a, input.incoming, fd);
      var (t, gone) := ReadAll(env, a, input.incoming);
      ClosingKeepsLog(t, gone);
    }
  }
}
