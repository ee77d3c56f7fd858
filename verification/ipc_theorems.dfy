/** What holds of every run of the IPC transport: framing, bounded buffers,
    exactly-once disconnects and subscriptions that survive descriptor reuse. */
module IpcTheorems {
  import opened Framing
  import opened IpcServices

  // ----- Invariants -----

  /** Every connection ever accepted is either open behind exactly one descriptor or
      was reported disconnected exactly once. */
  ghost predicate Registry(s: Service) {
    && s.conn.Keys == s.buffers.Keys
    && (forall fd :: fd in s.conn ==> s.conn[fd] < s.next && s.conn[fd] !in s.closed)
    && (forall a, b :: a in s.conn && b in s.conn && s.conn[a] == s.conn[b] ==> a == b)
    && (forall i, j :: 0 <= i < j < |s.closed| ==> s.closed[i] != s.closed[j])
    && (forall c :: c in s.closed ==> c < s.next)
    && (forall c: nat :: c < s.next ==> c in s.closed || IsOpen(s, c))
    && (forall c: nat :: c in s.read <==> c < s.next)
  }

  ghost predicate IsOpen(s: Service, c: nat) {
    exists fd :: fd in s.conn && s.conn[fd] == c
  }

  /** The last subscribe or unsubscribe line of connection `c` was a subscribe. */
  predicate Wants(env: Env, log: seq<Delivery>, c: nat) {
    log != [] &&
    var d := log[|log| - 1];
    if d.conn == c && env.kind(d.line).Subscribe? then true
    else if d.conn == c && env.kind(d.line).Unsubscribe? then false
    else Wants(env, log[..|log| - 1], c)
  }

  /** Exactly the open connections that want events are subscribed. */
  ghost predicate Subs(env: Env, s: Service) {
    forall fd :: fd in s.subscribed <==> fd in s.conn && Wants(env, s.log, s.conn[fd])
  }

  /** A deferred disconnect concerns a connection that a write failed for. */
  ghost predicate Doom(s: Service) {
    && (forall fd :: fd in s.pending && fd in s.conn ==> s.conn[fd] in s.failed)
    && (forall i, j :: 0 <= i < j < |s.pending| ==> s.pending[i] != s.pending[j])
  }

  /** The lines delivered for connection `c`, in order. */
  function LinesOf(log: seq<Delivery>, c: nat): seq<string> {
    if log == [] then []
    else
      var d := log[|log| - 1];
      LinesOf(log[..|log| - 1], c) + if d.conn == c then [d.line] else []
  }

  /** Delivered lines are the lines of the bytes read, and each buffer is the rest. */
  ghost predicate Framed(s: Service) {
    && (forall c :: c in s.read ==> LinesOf(s.log, c) == Lines(s.read[c]))
    && (forall fd :: fd in s.buffers ==>
          fd in s.conn && s.conn[fd] in s.read && s.buffers[fd] == Rest(s.read[s.conn[fd]]))
    && (forall i :: 0 <= i < |s.log| ==>
          s.log[i].conn < s.next && |s.log[i].line| <= MAX_LINE + READ_CHUNK - 1)
  }

  /** Buffers are within the cap, except those about to be disconnected. */
  ghost predicate Capped(s: Service, gone: seq<Fd>) {
    forall fd :: fd in s.buffers && fd !in gone ==> |s.buffers[fd]| <= MAX_LINE
  }

  ghost predicate Inv(env: Env, s: Service) {
    Registry(s) && Subs(env, s) && Doom(s) && Framed(s)
  }

  // ----- Closing -----

  lemma ClosedInv(env: Env, s: Service, fd: Fd)
    requires Inv(env, s)
    ensures Inv(env, Closed(s, fd))
  {
    if fd in s.buffers {
      var n := Closed(s, fd);
      ClosedRegistry(s, fd);
    }
  }

  lemma ClosedRegistry(s: Service, fd: Fd)
    requires Registry(s) && fd in s.buffers
    ensures Registry(Closed(s, fd))
  {
    var n := Closed(s, fd);
    forall c: nat | c < n.next ensures c in n.closed || IsOpen(n, c) {
      if c in s.closed {
        var i :| 0 <= i < |s.closed| && s.closed[i] == c;
        assert n.closed[i] == c;
      } else {
        var f :| f in s.conn && s.conn[f] == c;
        if f == fd {
          assert n.closed[|s.closed|] == c;
        } else {
          assert f in n.conn && n.conn[f] == c;
        }
      }
    }
  }

  lemma {:induction false} ClosedAllInv(env: Env, s: Service, fds: seq<Fd>)
    requires Inv(env, s)
    ensures Inv(env, ClosedAll(s, fds)) && ClosedAll(s, fds).pending == s.pending
    ensures forall fd :: fd in ClosedAll(s, fds).buffers <==> fd in s.buffers && fd !in fds
    ensures forall fd :: fd in ClosedAll(s, fds).buffers ==> ClosedAll(s, fds).buffers[fd] == s.buffers[fd]
  {
    if fds != [] {
      var front, last := fds[..|fds| - 1], fds[|fds| - 1];
      ClosedAllInv(env, s, front);
      ClosedInv(env, ClosedAll(s, front), last);
      assert fds == front + [last];
    }
  }

  lemma FlushedInv(env: Env, s: Service)
    requires Inv(env, s)
    ensures Inv(env, Flushed(s)) && Flushed(s).pending == []
    ensures Capped(s, []) ==> Capped(Flushed(s), [])
  {
    ClosedAllInv(env, s, s.pending);
    var t := ClosedAll(s, s.pending);
    assert Registry(Flushed(s)) && Framed(Flushed(s));
  }

  // ----- Accepting -----

  lemma AcceptedInv(env: Env, s: Service, fd: Fd)
    requires Inv(env, s) && fd !in s.buffers && s.pending == []
    ensures Inv(env, Accepted(s, fd))
    ensures Capped(s, []) ==> Capped(Accepted(s, fd), [])
  {
    AcceptedRegistry(s, fd);
    AcceptedSubs(env, s, fd);
    AcceptedFramed(s, fd);
  }

  lemma AcceptedSubs(env: Env, s: Service, fd: Fd)
    requires Registry(s) && Framed(s) && Subs(env, s) && fd !in s.buffers
    ensures Subs(env, Accepted(s, fd))
  {
    NoWishYet(env, s.log, s.next);
  }

  lemma AcceptedFramed(s: Service, fd: Fd)
    requires Registry(s) && Framed(s) && fd !in s.buffers
    ensures Framed(Accepted(s, fd))
  {
    NoLinesYet(s.log, s.next);
    assert Newline("") == 0;
  }

  lemma AcceptedOpen(s: Service, fd: Fd, c: nat)
    requires fd !in s.conn && (c < s.next ==> c in s.closed || IsOpen(s, c))
    ensures c < Accepted(s, fd).next ==> c in Accepted(s, fd).closed || IsOpen(Accepted(s, fd), c)
  {
    var n := Accepted(s, fd);
    if c == s.next {
      assert fd in n.conn && n.conn[fd] == c;
    } else if c < s.next && c !in s.closed {
      var f :| f in s.conn && s.conn[f] == c;
      assert f in n.conn && n.conn[f] == c;
    }
  }

  lemma AcceptedRegistry(s: Service, fd: Fd)
    requires Registry(s) && fd !in s.buffers
    ensures Registry(Accepted(s, fd))
  {
    assert s.next !in s.closed;
    forall c: nat | c < Accepted(s, fd).next ensures c in Accepted(s, fd).closed || IsOpen(Accepted(s, fd), c) {
      AcceptedOpen(s, fd, c);
    }
  }

  lemma {:induction false} NoLinesYet(log: seq<Delivery>, c: nat)
    requires forall i :: 0 <= i < |log| ==> log[i].conn != c
    ensures LinesOf(log, c) == []
  {
    if log != [] {
      NoLinesYet(log[..|log| - 1], c);
    }
  }

  lemma {:induction false} AcceptedKeys(s: Service, fds: seq<Fd>)
    ensures forall fd :: fd in AcceptedAll(s, fds).buffers <==> fd in s.buffers || fd in fds
    ensures AcceptedAll(s, fds).pending == s.pending
  {
    if fds != [] {
      var front, last := fds[..|fds| - 1], fds[|fds| - 1];
      AcceptedKeys(s, front);
      assert fds == front + [last];
    }
  }

  lemma {:induction false} AcceptedAllInv(env: Env, s: Service, fds: seq<Fd>)
    requires Inv(env, s) && s.pending == [] && Capped(s, [])
    requires forall i :: 0 <= i < |fds| ==> fds[i] !in s.buffers
    requires forall i, j :: 0 <= i < j < |fds| ==> fds[i] != fds[j]
    ensures Inv(env, AcceptedAll(s, fds)) && Capped(AcceptedAll(s, fds), [])
  {
    if fds != [] {
      var front, last := fds[..|fds| - 1], fds[|fds| - 1];
      AcceptedAllInv(env, s, front);
      assert last !in AcceptedAll(s, front).buffers && AcceptedAll(s, front).pending == [] by {
        AcceptedKeys(s, front);
        assert forall i :: 0 <= i < |front| ==> front[i] == fds[i] != last;
      }
      AcceptedInv(env, AcceptedAll(s, front), last);
    }
  }

  // ----- Answering lines -----

  lemma WantsMore(env: Env, log: seq<Delivery>, d: Delivery, c: nat)
    ensures Wants(env, log + [d], c) ==
            if d.conn == c && env.kind(d.line).Subscribe? then true
            else if d.conn == c && env.kind(d.line).Unsubscribe? then false
            else Wants(env, log, c)
  {
    assert (log + [d])[..|log|] == log;
  }

  lemma {:induction false} NoWishYet(env: Env, log: seq<Delivery>, c: nat)
    requires forall i :: 0 <= i < |log| ==> log[i].conn != c
    ensures !Wants(env, log, c)
  {
    if log != [] {
      NoWishYet(env, log[..|log| - 1], c);
    }
  }

  lemma MarkedDoom(s: Service, fd: Fd)
    requires Doom(s)
    ensures Doom(Marked(s, fd))
  {
  }

  lemma {:induction false} MarkedAllDoom(s: Service, fds: seq<Fd>)
    requires Doom(s)
    ensures Doom(MarkedAll(s, fds))
  {
    if fds != [] {
      MarkedAllDoom(s, fds[..|fds| - 1]);
      MarkedDoom(MarkedAll(s, fds[..|fds| - 1]), fds[|fds| - 1]);
    }
  }

  /** No descriptor shares its connection with another. */
  ghost predicate OneToOne(s: Service) {
    forall a, b :: a in s.conn && b in s.conn && s.conn[a] == s.conn[b] ==> a == b
  }

  lemma ReactedSubs(env: Env, s: Service, fd: Fd, line: string)
    requires Subs(env, s) && Doom(s) && fd in s.conn && OneToOne(s)
    ensures Subs(env, Reacted(env, s, fd, line)) && Doom(Reacted(env, s, fd, line))
  {
    var d := Delivery(s.conn[fd], line);
    var routed := s.(subscribed := Subscriptions(s.subscribed, fd, env.kind(line)), log := s.log + [d]);
    forall f ensures f in routed.subscribed <==> f in routed.conn && Wants(env, routed.log, routed.conn[f]) {
      if f in s.conn {
        WantsMore(env, s.log, d, s.conn[f]);
      }
    }
    MarkedAllDoom(routed, env.fails(|s.log|));
    MarkingKeeps(routed, env.fails(|s.log|));
  }

  lemma {:induction false} ReactedAllSubs(env: Env, s: Service, fd: Fd, lines: seq<string>)
    requires Subs(env, s) && Doom(s) && fd in s.conn && OneToOne(s)
    ensures Subs(env, ReactedAll(env, s, fd, lines)) && Doom(ReactedAll(env, s, fd, lines))
  {
    if lines != [] {
      var front := lines[..|lines| - 1];
      ReactedAllSubs(env, s, fd, front);
      ReactionKeeps(env, s, fd, front);
      ReactedSubs(env, ReactedAll(env, s, fd, front), fd, lines[|lines| - 1]);
    }
  }

  /** Delivering `lines` for one connection adds them to its lines only. */
  lemma {:induction false} LinesOfMore(log: seq<Delivery>, all: seq<Delivery>, conn: nat, lines: seq<string>, c: nat)
    requires |all| == |log| + |lines| && all[..|log|] == log
    requires forall i :: 0 <= i < |lines| ==> all[|log| + i] == Delivery(conn, lines[i])
    ensures LinesOf(all, c) == LinesOf(log, c) + if c == conn then lines else []
  {
    if lines == [] {
      assert all == log;
    } else {
      var front, last := lines[..|lines| - 1], lines[|lines| - 1];
      LinesOfMore(log, all[..|all| - 1], conn, front, c);
      assert lines == front + [last];
      assert all[|all| - 1] == Delivery(conn, last);
    }
  }

  // ----- Reading -----

  /** Reading touches one buffer and one connection's bytes. */
  lemma ReadOneKeeps(env: Env, s: Service, r: Read)
    requires Registry(s) && r.fd in s.buffers
    ensures var t := ReadOne(env, s, r).0;
            && Registry(t) && t.conn == s.conn && t.next == s.next
            && t.buffers.Keys == s.buffers.Keys
            && (forall fd :: fd in s.buffers && fd != r.fd ==> t.buffers[fd] == s.buffers[fd])
  {
    if r.got.Bytes? {
      var base := Received(s, r.fd, r.got.data);
      ReactionKeeps(env, base, r.fd, Lines(BufferOf(s, r.fd) + r.got.data));
      var t := ReadOne(env, s, r).0;
      forall c: nat | c < t.next ensures c in t.closed || IsOpen(t, c) {
        if c !in s.closed {
          var f :| f in s.conn && s.conn[f] == c;
          assert f in t.conn && t.conn[f] == c;
        }
      }
    }
  }

  /** `t` is `s` after `data` arrived on `fd`, as far as framing is concerned. */
  ghost predicate Arrived(s: Service, t: Service, fd: Fd, data: string)
    requires fd in s.buffers && fd in s.conn && s.conn[fd] in s.read
  {
    var c, whole := s.conn[fd], s.buffers[fd] + data;
    && t.read == s.read[c := s.read[c] + data] && t.buffers == s.buffers[fd := Rest(whole)]
    && t.next == s.next && t.conn == s.conn
    && |t.log| == |s.log| + |Lines(whole)| && t.log[..|s.log|] == s.log
    && (forall i :: 0 <= i < |Lines(whole)| ==> t.log[|s.log| + i] == Delivery(c, Lines(whole)[i]))
  }

  lemma ReadOneFeeds(env: Env, s: Service, r: Read)
    requires Registry(s) && r.fd in s.buffers && r.got.Bytes?
    ensures s.conn[r.fd] in s.read && Arrived(s, ReadOne(env, s, r).0, r.fd, r.got.data)
  {
    var whole := s.buffers[r.fd] + r.got.data;
    var base := Received(s, r.fd, r.got.data);
    ReactionKeeps(env, base, r.fd, Lines(whole));
    assert ReadOne(env, s, r).0 == ReactedAll(env, base, r.fd, Lines(whole));
  }

  /** Framing of one connection after `data` arrived for connection `conn`. */
  lemma LinesFollowBytes(log: seq<Delivery>, all: seq<Delivery>, conn: nat, bytes: string, data: string)
    requires LinesOf(log, conn) == Lines(bytes)
    requires var lines := Lines(Rest(bytes) + data);
             && |all| == |log| + |lines| && all[..|log|] == log
             && forall i :: 0 <= i < |lines| ==> all[|log| + i] == Delivery(conn, lines[i])
    ensures LinesOf(all, conn) == Lines(bytes + data)
    ensures forall c :: c != conn ==> LinesOf(all, c) == LinesOf(log, c)
  {
    var lines := Lines(Rest(bytes) + data);
    FramingResumes(bytes, data);
    LinesOfMore(log, all, conn, lines, conn);
    forall c | c != conn ensures LinesOf(all, c) == LinesOf(log, c) {
      LinesOfMore(log, all, conn, lines, c);
    }
  }

  lemma FedLines(s: Service, t: Service, fd: Fd, data: string)
    requires Registry(s) && Framed(s) && fd in s.buffers && s.conn[fd] in s.read && Arrived(s, t, fd, data)
    ensures forall c :: c in t.read ==> LinesOf(t.log, c) == Lines(t.read[c])
  {
    LinesFollowBytes(s.log, t.log, s.conn[fd], s.read[s.conn[fd]], data);
  }

  lemma FedLog(s: Service, t: Service, fd: Fd, data: string)
    requires Registry(s) && Framed(s) && fd in s.buffers && s.conn[fd] in s.read && Arrived(s, t, fd, data)
    requires |s.buffers[fd]| <= MAX_LINE && |data| <= READ_CHUNK
    ensures forall i :: 0 <= i < |t.log| ==> t.log[i].conn < t.next && |t.log[i].line| <= MAX_LINE + READ_CHUNK - 1
  {
    var whole := s.buffers[fd] + data;
    PiecesAreClean(whole);
    forall i | 0 <= i < |t.log| ensures t.log[i].conn < t.next && |t.log[i].line| <= MAX_LINE + READ_CHUNK - 1 {
      if i < |s.log| {
        assert t.log[i] == t.log[..|s.log|][i];
      } else {
        assert t.log[|s.log| + (i - |s.log|)] == Delivery(s.conn[fd], Lines(whole)[i - |s.log|]);
      }
    }
  }

  lemma FedFramed(s: Service, t: Service, fd: Fd, data: string)
    requires Registry(s) && Framed(s) && fd in s.buffers && s.conn[fd] in s.read && Arrived(s, t, fd, data)
    requires |s.buffers[fd]| <= MAX_LINE && |data| <= READ_CHUNK
    ensures Framed(t)
  {
    FedLines(s, t, fd, data);
    FedLog(s, t, fd, data);
    FramingResumes(s.read[s.conn[fd]], data);
  }

  lemma ReadOneFramed(env: Env, s: Service, r: Read)
    requires Registry(s) && Framed(s) && r.fd in s.buffers && |s.buffers[r.fd]| <= MAX_LINE
    requires r.got.Bytes? && |r.got.data| <= READ_CHUNK
    ensures Framed(ReadOne(env, s, r).0)
  {
    ReadOneFeeds(env, s, r);
    FedFramed(s, ReadOne(env, s, r).0, r.fd, r.got.data);
  }

  lemma ReadOneInv(env: Env, s: Service, r: Read)
    requires Inv(env, s) && r.fd in s.buffers && |s.buffers[r.fd]| <= MAX_LINE
    requires r.got.Bytes? ==> |r.got.data| <= READ_CHUNK
    ensures Inv(env, ReadOne(env, s, r).0)
  {
    if r.got.Bytes? {
      ReadOneKeeps(env, s, r);
      ReadOneFramed(env, s, r);
      ReactedAllSubs(env, Received(s, r.fd, r.got.data), r.fd, Lines(BufferOf(s, r.fd) + r.got.data));
    }
  }

  lemma ReadOneCapped(env: Env, s: Service, r: Read, gone: seq<Fd>)
    requires Registry(s) && r.fd in s.buffers && Capped(s, gone) && r.fd !in gone
    ensures var (t, bad) := ReadOne(env, s, r); Capped(t, if bad then gone + [r.fd] else gone)
  {
    ReadOneKeeps(env, s, r);
    if r.got.Bytes? {
      ReactionKeeps(env, Received(s, r.fd, r.got.data), r.fd, Lines(BufferOf(s, r.fd) + r.got.data));
    }
  }

  lemma ReadOneKeys(env: Env, s: Service, r: Read)
    requires r.fd in s.buffers
    ensures ReadOne(env, s, r).0.buffers.Keys == s.buffers.Keys
  {
    if r.got.Bytes? {
      ReactionKeeps(env, Received(s, r.fd, r.got.data), r.fd, Lines(BufferOf(s, r.fd) + r.got.data));
    }
  }

  predicate WasRead(incoming: seq<Read>, fd: Fd) {
    exists i :: 0 <= i < |incoming| && incoming[i].fd == fd
  }

  /** Reading keeps the registry of clients; only clients just read are given up. */
  lemma {:induction false} ReadAllKeys(env: Env, s: Service, incoming: seq<Read>)
    requires forall i :: 0 <= i < |incoming| ==> incoming[i].fd in s.buffers
    ensures ReadAll(env, s, incoming).0.buffers.Keys == s.buffers.Keys
    ensures forall fd :: fd in ReadAll(env, s, incoming).1 ==> WasRead(incoming, fd)
  {
    if incoming != [] {
      var front, r := incoming[..|incoming| - 1], incoming[|incoming| - 1];
      ReadAllKeys(env, s, front);
      var (t, gone) := ReadAll(env, s, front);
      ReadOneKeys(env, t, r);
      forall fd | fd in ReadAll(env, s, incoming).1 ensures WasRead(incoming, fd) {
        if fd in gone {
          var i :| 0 <= i < |front| && front[i].fd == fd;
          assert incoming[i].fd == fd;
        } else {
          assert incoming[|incoming| - 1].fd == fd;
        }
      }
    }
  }

  lemma {:induction false} ReadAllInv(env: Env, s: Service, incoming: seq<Read>)
    requires Inv(env, s) && Capped(s, [])
    requires forall i :: 0 <= i < |incoming| ==> incoming[i].fd in s.buffers
    requires forall i :: 0 <= i < |incoming| ==>
               (incoming[i].got.Bytes? ==> 0 < |incoming[i].got.data| <= READ_CHUNK)
    requires forall i, j :: 0 <= i < j < |incoming| ==> incoming[i].fd != incoming[j].fd
    ensures var (t, gone) := ReadAll(env, s, incoming); Inv(env, t) && Capped(t, gone)
  {
    if incoming != [] {
      var front, r := incoming[..|incoming| - 1], incoming[|incoming| - 1];
      ReadAllInv(env, s, front);
      var (t, gone) := ReadAll(env, s, front);
      assert r.fd in t.buffers && r.fd !in gone by {
        ReadAllKeys(env, s, front);
        assert forall i :: 0 <= i < |front| ==> front[i] == incoming[i] && front[i].fd != r.fd;
      }
      ReadOneInv(env, t, r);
      ReadOneCapped(env, t, r, gone);
    }
  }

  // ----- Runs -----

  /** A poll, or events broadcast between polls, some of whose writes fail. */
  datatype Op = Poll(input: Input) | Broadcast(fails: seq<Fd>)

  ghost predicate Legal(s: Service, op: Op) {
    op.Poll? ==> ValidInput(s, op.input)
  }

  function After(env: Env, s: Service, op: Op): Service {
    match op
    case Poll(input) => Polled(env, s, input)
    case Broadcast(fails) => MarkedAll(s, fails)
  }

  ghost predicate CanServe(env: Env, s: Service, ops: seq<Op>)
    decreases ops
  {
    ops == [] || (Legal(s, ops[0]) && CanServe(env, After(env, s, ops[0]), ops[1..]))
  }

  function Served(env: Env, s: Service, ops: seq<Op>): Service
    decreases ops
  {
    if ops == [] then s else Served(env, After(env, s, ops[0]), ops[1..])
  }

  lemma PolledInv(env: Env, s: Service, input: Input)
    requires Inv(env, s) && Capped(s, []) && ValidInput(s, input)
    ensures Inv(env, Polled(env, s, input)) && Capped(Polled(env, s, input), [])
  {
    FlushedInv(env, s);
    if input.ready {
      AcceptedAllInv(env, Flushed(s), input.accepts);
      AcceptedKeys(Flushed(s), input.accepts);
      var a := AcceptedAll(Flushed(s), input.accepts);
      ReadAllInv(env, a, input.incoming);
      var (t, gone) := ReadAll(env, a, input.incoming);
      ClosedAllInv(env, t, gone);
    }
  }

  lemma BroadcastInv(env: Env, s: Service, fails: seq<Fd>)
    requires Inv(env, s) && Capped(s, [])
    ensures Inv(env, MarkedAll(s, fails)) && Capped(MarkedAll(s, fails), [])
  {
    MarkedAllDoom(s, fails);
    MarkingKeeps(s, fails);
    var t := MarkedAll(s, fails);
    forall c: nat | c < t.next ensures c in t.closed || IsOpen(t, c) {
      if c !in s.closed {
        var f :| f in s.conn && s.conn[f] == c;
        assert f in t.conn && t.conn[f] == c;
      }
    }
  }

  lemma {:induction false} ServedInv(env: Env, s: Service, ops: seq<Op>)
    requires Inv(env, s) && Capped(s, []) && CanServe(env, s, ops)
    ensures Inv(env, Served(env, s, ops)) && Capped(Served(env, s, ops), [])
    decreases ops
  {
    if ops != [] {
      match ops[0] {
        case Poll(input) => PolledInv(env, s, input);
        case Broadcast(fails) => BroadcastInv(env, s, fails);
      }
      ServedInv(env, After(env, s, ops[0]), ops[1..]);
    }
  }

  /** `s` is the transport after some run. */
  ghost predicate Reached(env: Env, s: Service, ops: seq<Op>) {
    CanServe(env, Opened, ops) && s == Served(env, Opened, ops)
  }

  lemma ReachedInv(env: Env, s: Service, ops: seq<Op>)
    requires Reached(env, s, ops)
    ensures Inv(env, s) && Capped(s, [])
  {
    ServedInv(env, Opened, ops);
  }

  /** For every cutting into reads and every interleaving of clients, the lines
      delivered for a connection are the newline-terminated pieces of the bytes read
      from it; an open client's buffer is the rest, at most 2^20 bytes; no delivered
      line is longer than 2^20 + 4095 bytes. */
  lemma FramingIsExact(env: Env, s: Service, ops: seq<Op>)
    requires Reached(env, s, ops)
    ensures forall c :: c in s.read ==> LinesOf(s.log, c) == Lines(s.read[c])
    ensures forall fd :: fd in s.buffers ==>
              && fd in s.conn && s.conn[fd] in s.read
              && s.buffers[fd] == Rest(s.read[s.conn[fd]]) && |s.buffers[fd]| <= 0x10_0000
    ensures forall i :: 0 <= i < |s.log| ==> |s.log[i].line| <= 0x10_0000 + 4095
  {
    ReachedInv(env, s, ops);
  }

  /** A descriptor is subscribed exactly when the connection now behind it is open and
      its own last wish was to subscribe; a subscription never passes to another
      connection on the same descriptor. */
  lemma SubscriptionsAreOwn(env: Env, s: Service, ops: seq<Op>, fd: Fd)
    requires Reached(env, s, ops)
    ensures fd in s.subscribed <==> fd in s.buffers && fd in s.conn && Wants(env, s.log, s.conn[fd])
  {
    ReachedInv(env, s, ops);
  }

  /** Every connection accepted is open behind one descriptor, or was reported to
      on_disconnect exactly once, never both. */
  lemma DisconnectedExactlyOnce(env: Env, s: Service, ops: seq<Op>, c: nat)
    requires Reached(env, s, ops) && c < s.next
    ensures IsOpen(s, c) <==> c !in s.closed
    ensures forall i, j :: 0 <= i < j < |s.closed| ==> s.closed[i] != s.closed[j]
  {
    ReachedInv(env, s, ops);
  }

  /** Connections are accepted only when no deferred disconnect is outstanding, and a
      deferred disconnect only ever closes a connection whose own write failed. */
  lemma DeferredDisconnectsHitTheirTarget(env: Env, s: Service, ops: seq<Op>, fd: Fd)
    requires Reached(env, s, ops)
    ensures Flushed(s).pending == []
    ensures fd in s.pending && fd in s.buffers ==> fd in s.conn && s.conn[fd] in s.failed && fd !in Flushed(s).buffers
    ensures fd in s.buffers && fd !in s.pending ==> fd in Flushed(s).buffers
  {
    ReachedInv(env, s, ops);
    ClosedAllInv(env, s, s.pending);
  }
}
