/** The IPC transport (src/domains/ipc/ipc_server.cpp, ipc_service.cpp and
    event_bridge.cpp) between start() and stop(): read buffers, deferred
    disconnects and event subscriptions. The server's callbacks are the service's,
    so the three objects are modelled as one. */
module IpcServices {
  import opened Sequences
  import opened Framing

  const MAX_LINE: nat := 0x10_0000
  const READ_CHUNK: nat := 4096

  /** A descriptor, which the system may hand out again once it is closed. */
  type Fd = int

  /** What a line asks for. */
  datatype Kind = Subscribe | Unsubscribe | Other

  /** What read() answers. */
  datatype Got = EndOfStream | ReadError | Nothing | Bytes(data: string)

  datatype Read = Read(fd: Fd, got: Got)

  /** One poll: whether poll() reports anything, the connections accepted, and the
      descriptors reported readable, in the order they are served. */
  datatype Input = Input(ready: bool, accepts: seq<Fd>, incoming: seq<Read>)

  /** How lines are classified, and which clients a write fails for while the n-th
      delivered line is being answered. */
  datatype Env = Env(kind: string -> Kind, fails: nat -> seq<Fd>)

  datatype Delivery = Delivery(conn: nat, line: string)

  datatype Service = Service(
    buffers: map<Fd, string>,     // read_buffers: also the registry of clients
    pending: seq<Fd>,             // pending_disconnects
    subscribed: set<Fd>,          // EventBridge::subscribed_clients_
    // Histories: connections are numbered as they are accepted.
    conn: map<Fd, nat>,
    next: nat,
    closed: seq<nat>,             // connections reported to on_disconnect
    failed: set<nat>,             // connections a write failed for
    read: map<nat, string>,       // bytes read from each connection
    log: seq<Delivery>)           // lines delivered

  const Opened := Service(map[], [], {}, map[], 0, [], {}, map[], [])

  function ConnOf(s: Service, fd: Fd): nat {
    if fd in s.conn then s.conn[fd] else s.next
  }

  // ----- Single actions -----

  /** Erase, close, on_disconnect; nothing for an unknown client. */
  function Closed(s: Service, fd: Fd): Service {
    if fd !in s.buffers then s
    else s.(buffers := s.buffers - {fd}, subscribed := s.subscribed - {fd}, conn := s.conn - {fd},
            closed := s.closed + [ConnOf(s, fd)])
  }

  function Accepted(s: Service, fd: Fd): Service {
    s.(buffers := s.buffers[fd := ""], conn := s.conn[fd := s.next], next := s.next + 1,
       read := s.read[s.next := ""])
  }

  /** send_line() to a client whose write fails. */
  function Marked(s: Service, fd: Fd): Service {
    if fd !in s.buffers then s
    else s.(pending := if fd in s.pending then s.pending else s.pending + [fd],
            failed := s.failed + {ConnOf(s, fd)})
  }

  function MarkedAll(s: Service, fds: seq<Fd>): Service {
    if fds == [] then s else Marked(MarkedAll(s, fds[..|fds| - 1]), fds[|fds| - 1])
  }

  /** The clients in `order` whose write fails. */
  function Failing(order: seq<Fd>, broken: set<Fd>): seq<Fd> {
    if order == [] then []
    else
      var last := order[|order| - 1];
      Failing(order[..|order| - 1], broken) + if last in broken then [last] else []
  }

  function Subscriptions(subscribed: set<Fd>, fd: Fd, kind: Kind): set<Fd> {
    match kind
    case Subscribe => subscribed + {fd}
    case Unsubscribe => subscribed - {fd}
    case Other => subscribed
  }

  /** on_line: route the line, then send replies and events. */
  function Reacted(env: Env, s: Service, fd: Fd, line: string): Service {
    MarkedAll(s.(subscribed := Subscriptions(s.subscribed, fd, env.kind(line)),
                 log := s.log + [Delivery(ConnOf(s, fd), line)]),
              env.fails(|s.log|))
  }

  function ReactedAll(env: Env, s: Service, fd: Fd, lines: seq<string>): Service {
    if lines == [] then s
    else Reacted(env, ReactedAll(env, s, fd, lines[..|lines| - 1]), fd, lines[|lines| - 1])
  }

  function BufferOf(s: Service, fd: Fd): string {
    if fd in s.buffers then s.buffers[fd] else ""
  }

  function BytesOf(s: Service, conn: nat): string {
    if conn in s.read then s.read[conn] else ""
  }

  /** The bytes arrive: the buffer keeps what follows the last newline. */
  function Received(s: Service, fd: Fd, data: string): Service {
    s.(buffers := s.buffers[fd := Rest(BufferOf(s, fd) + data)],
       read := s.read[ConnOf(s, fd) := BytesOf(s, ConnOf(s, fd)) + data])
  }

  /** Serving one readable descriptor; the flag asks for a disconnect. */
  function ReadOne(env: Env, s: Service, r: Read): (Service, bool) {
    match r.got
    case EndOfStream => (s, true)
    case ReadError => (s, true)
    case Nothing => (s, false)
    case Bytes(data) =>
      var s' := ReactedAll(env, Received(s, r.fd, data), r.fd, Lines(BufferOf(s, r.fd) + data));
      (s', |Rest(BufferOf(s, r.fd) + data)| > MAX_LINE)
  }

  // ----- A whole poll -----

  function ClosedAll(s: Service, fds: seq<Fd>): Service {
    if fds == [] then s else Closed(ClosedAll(s, fds[..|fds| - 1]), fds[|fds| - 1])
  }

  function AcceptedAll(s: Service, fds: seq<Fd>): Service {
    if fds == [] then s else Accepted(AcceptedAll(s, fds[..|fds| - 1]), fds[|fds| - 1])
  }

  function ReadAll(env: Env, s: Service, incoming: seq<Read>): (Service, seq<Fd>) {
    if incoming == [] then (s, [])
    else
      var r := incoming[|incoming| - 1];
      var (t, gone) := ReadAll(env, s, incoming[..|incoming| - 1]);
      var (u, bad) := ReadOne(env, t, r);
      (u, if bad then gone + [r.fd] else gone)
  }

  /** Deferred disconnects are carried out first. */
  function Flushed(s: Service): Service {
    ClosedAll(s, s.pending).(pending := [])
  }

  function Polled(env: Env, s: Service, input: Input): Service {
    if !input.ready then Flushed(s)
    else
      var (t, gone) := ReadAll(env, AcceptedAll(Flushed(s), input.accepts), input.incoming);
      ClosedAll(t, gone)
  }

  /** What the system guarantees: accepted descriptors are not in use, descriptors
      reported readable are distinct known clients, a read fills at most one chunk. */
  ghost predicate ValidInput(s: Service, input: Input) {
    && (forall i :: 0 <= i < |input.accepts| ==> input.accepts[i] !in Flushed(s).buffers)
    && (forall i, j :: 0 <= i < j < |input.accepts| ==> input.accepts[i] != input.accepts[j])
    && (forall i :: 0 <= i < |input.incoming| ==>
          && input.incoming[i].fd in Flushed(s).buffers
          && (input.incoming[i].got.Bytes? ==> 0 < |input.incoming[i].got.data| <= READ_CHUNK))
    && (forall i, j :: 0 <= i < j < |input.incoming| ==> input.incoming[i].fd != input.incoming[j].fd)
  }

  // ----- The objects -----

  class IpcService {
    const env: Env
    var buffers: map<Fd, string>
    var pending: seq<Fd>
    var subscribed: set<Fd>
    ghost var conn: map<Fd, nat>
    ghost var next: nat
    ghost var closed: seq<nat>
    ghost var failed: set<nat>
    ghost var read: map<nat, string>
    ghost var log: seq<Delivery>
    var lines: nat    // lines answered so far; only numbers the environment's answers

    ghost function State(): Service
      reads this
    {
      Service(buffers, pending, subscribed, conn, next, closed, failed, read, log)
    }

    ghost predicate Valid()
      reads this
    {
      lines == |log|
    }

    constructor (env: Env)
      ensures this.env == env && State() == Opened && Valid()
    {
      this.env := env;
      buffers, pending, subscribed, lines := map[], [], {}, 0;
      conn, next, closed, failed, read, log := map[], 0, [], {}, map[], [];
    }

    method Disconnect(fd: Fd)
      modifies this
      ensures State() == Closed(old(State()), fd) && lines == old(lines)
    {
      if fd in buffers {
        closed := closed + [ConnOf(State(), fd)];
        buffers := buffers - {fd};
        conn := conn - {fd};
        subscribed := subscribed - {fd};
      }
    }

    method DisconnectAll(fds: seq<Fd>)
      modifies this
      ensures State() == ClosedAll(old(State()), fds) && lines == old(lines)
    {
      for i := 0 to |fds|
        invariant State() == ClosedAll(old(State()), fds[..i]) && lines == old(lines)
      {
        Disconnect(fds[i]);
        assert fds[..i + 1][..i] == fds[..i];
      }
      assert fds[..|fds|] == fds;
    }

    /** send_line() up to its bookkeeping; `ok` says whether the whole write succeeds. */
    method SendLine(fd: Fd, ok: bool)
      modifies this
      ensures State() == if ok then old(State()) else Marked(old(State()), fd)
      ensures buffers == old(buffers) && subscribed == old(subscribed)
      ensures pending == if ok || fd !in buffers || fd in old(pending) then old(pending) else old(pending) + [fd]
      ensures lines == old(lines)
    {
      if fd !in buffers || ok {
        return;
      }
      failed := failed + {ConnOf(State(), fd)};
      if fd !in pending {
        pending := pending + [fd];
      }
    }

    /** broadcast(): one line to every subscriber, in the set's iteration order. */
    method Broadcast(order: seq<Fd>, broken: set<Fd>)
      requires Valid() && forall fd :: fd in order <==> fd in subscribed
      modifies this
      ensures Valid() && State() == MarkedAll(old(State()), Failing(order, broken))
      ensures forall fd :: fd in pending <==>
                fd in old(pending) || (fd in subscribed && fd in broken && fd in buffers)
    {
      for i := 0 to |order|
        invariant State() == MarkedAll(old(State()), Failing(order[..i], broken)) && lines == old(lines)
      {
        FailingMarked(old(State()), order, broken, i);
        SendLine(order[i], order[i] !in broken);
      }
      assert order[..|order|] == order;
      MarkingKeeps(old(State()), Failing(order, broken));
      forall fd
        ensures fd in pending <==> fd in old(pending) || (fd in subscribed && fd in broken && fd in buffers)
      {
        MarkedExactly(old(State()), Failing(order, broken), fd);
        FailingMembers(order, broken, fd);
      }
    }

    method OnLine(fd: Fd, line: string)
      requires Valid()
      modifies this
      ensures Valid() && State() == Reacted(env, old(State()), fd, line)
    {
      ghost var before := State();
      match env.kind(line) {
        case Subscribe => subscribed := subscribed + {fd};
        case Unsubscribe => subscribed := subscribed - {fd};
        case Other =>
      }
      var fails := env.fails(lines);
      log := log + [Delivery(ConnOf(before, fd), line)];
      lines := lines + 1;
      ghost var routed := State();
      for i := 0 to |fails|
        invariant State() == MarkedAll(routed, fails[..i]) && lines == |routed.log|
      {
        SendLine(fails[i], false);
        assert fails[..i + 1][..i] == fails[..i];
      }
      assert fails[..|fails|] == fails;
      MarkingKeeps(routed, fails);
    }

    /** Cuts the first line, of length `n`, off the buffer and delivers it. */
    method CutLine(fd: Fd, n: nat, ghost base: Service, ghost done: seq<string>)
      requires Valid() && fd in base.buffers && fd in buffers && n < |buffers[fd]|
      requires State() == ReactedAll(env, base, fd, done).(buffers := base.buffers[fd := buffers[fd]])
      modifies this
      ensures Valid() && fd in buffers && buffers[fd] == old(buffers[fd])[n + 1..]
      ensures State() ==
              ReactedAll(env, base, fd, done + [old(buffers[fd])[..n]]).(buffers := base.buffers[fd := buffers[fd]])
    {
      var line := buffers[fd][..n];
      var buffer := buffers[fd][n + 1..];
      ReactionsIgnoreBuffers(env, base, fd, done, line, buffer);
      assert base.buffers[fd := buffers[fd]][fd := buffer] == base.buffers[fd := buffer];
      buffers := buffers[fd := buffer];
      OnLine(fd, line);
    }

    /** The framing loop: cut and deliver until no newline is left. */
    method DeliverLines(fd: Fd, ghost base: Service)
      requires Valid() && fd in base.buffers && fd in buffers
      requires State() == base.(buffers := base.buffers[fd := buffers[fd]])
      modifies this
      ensures Valid() && fd in buffers && buffers[fd] == Rest(old(buffers[fd]))
      ensures State() ==
              ReactedAll(env, base, fd, Lines(old(buffers[fd]))).(buffers := base.buffers[fd := buffers[fd]])
    {
      ghost var whole := buffers[fd];
      ghost var done: seq<string> := [];
      ghost var later := Lines(whole);
      var n := Newline(buffers[fd]);
      while n < |buffers[fd]|
        invariant Valid() && fd in buffers && n == Newline(buffers[fd])
        invariant State() == ReactedAll(env, base, fd, done).(buffers := base.buffers[fd := buffers[fd]])
        invariant Lines(whole) == done + later && later == Lines(buffers[fd]) && Rest(whole) == Rest(buffers[fd])
        decreases |buffers[fd]|
      {
        ghost var line := buffers[fd][..n];
        later := Lines(buffers[fd][n + 1..]);
        assert Lines(whole) == done + [line] + later && Rest(whole) == Rest(buffers[fd][n + 1..]) by {
          CutOne(buffers[fd]);
          Regroup(done, [line], later);
        }
        CutLine(fd, n, base, done);
        done := done + [line];
        n := Newline(buffers[fd]);
      }
      assert later == [] && done + later == done;
    }

    method Receive(fd: Fd, data: string) returns (tooLong: bool)
      requires Valid()
      modifies this
      ensures Valid() && (State(), tooLong) == ReadOne(env, old(State()), Read(fd, Bytes(data)))
    {
      ghost var base := Received(State(), fd, data);
      var buffer := (if fd in buffers then buffers[fd] else "") + data;
      read := base.read;
      buffers := buffers[fd := buffer];
      assert buffers == base.buffers[fd := buffer];
      DeliverLines(fd, base);
      BuffersSettle(env, base, fd, Lines(buffer));
      tooLong := |buffers[fd]| > MAX_LINE;
    }

    method Serve(r: Read) returns (bad: bool)
      requires Valid()
      modifies this
      ensures Valid() && (State(), bad) == ReadOne(env, old(State()), r)
    {
      match r.got {
        case EndOfStream => bad := true;
        case ReadError => bad := true;
        case Nothing => bad := false;
        case Bytes(data) => bad := Receive(r.fd, data);
      }
    }

    method AcceptAll(fds: seq<Fd>)
      requires Valid()
      modifies this
      ensures Valid() && State() == AcceptedAll(old(State()), fds)
    {
      for i := 0 to |fds|
        invariant Valid() && State() == AcceptedAll(old(State()), fds[..i])
      {
        conn, read := conn[fds[i] := next], read[next := ""];
        next := next + 1;
        buffers := buffers[fds[i] := ""];
        assert fds[..i + 1][..i] == fds[..i];
      }
      assert fds[..|fds|] == fds;
    }

    method PollOnce(input: Input)
      requires Valid()
      modifies this
      ensures Valid() && State() == Polled(env, old(State()), input)
    {
      DisconnectAll(pending);
      ClosingKeepsLog(old(State()), old(pending));
      pending := [];
      if !input.ready {
        return;
      }
      AcceptAll(input.accepts);
      ghost var start := State();
      var gone: seq<Fd> := [];
      for i := 0 to |input.incoming|
        invariant Valid() && (State(), gone) == ReadAll(env, start, input.incoming[..i])
      {
        var bad := Serve(input.incoming[i]);
        if bad {
          gone := gone + [input.incoming[i].fd];
        }
        assert input.incoming[..i + 1][..i] == input.incoming[..i];
      }
      assert input.incoming[..|input.incoming|] == input.incoming;
      ghost var served := State();
      DisconnectAll(gone);
      ClosingKeepsLog(served, gone);
    }
  }

  // ----- What the actions leave alone -----

  lemma {:induction false} MarkingKeeps(s: Service, fds: seq<Fd>)
    ensures var t := MarkedAll(s, fds); t == s.(pending := t.pending, failed := t.failed)
  {
    if fds != [] {
      MarkingKeeps(s, fds[..|fds| - 1]);
    }
  }

  /** Exactly the known clients a write failed for are marked. */
  lemma {:induction false} MarkedExactly(s: Service, fds: seq<Fd>, fd: Fd)
    ensures fd in MarkedAll(s, fds).pending <==> fd in s.pending || (fd in fds && fd in s.buffers)
  {
    if fds != [] {
      var front, last := fds[..|fds| - 1], fds[|fds| - 1];
      MarkedExactly(s, front, fd);
      MarkingKeeps(s, front);
      assert fds == front + [last];
    }
  }

  lemma {:induction false} FailingMembers(order: seq<Fd>, broken: set<Fd>, fd: Fd)
    ensures fd in Failing(order, broken) <==> fd in order && fd in broken
  {
    if order != [] {
      FailingMembers(order[..|order| - 1], broken, fd);
      assert order == order[..|order| - 1] + [order[|order| - 1]];
    }
  }

  /** One more client in the broadcast. */
  lemma FailingMarked(s: Service, order: seq<Fd>, broken: set<Fd>, i: nat)
    requires i < |order|
    ensures var marked := MarkedAll(s, Failing(order[..i], broken));
            MarkedAll(s, Failing(order[..i + 1], broken)) ==
            if order[i] in broken then Marked(marked, order[i]) else marked
  {
    var failing := Failing(order[..i], broken);
    assert order[..i + 1][..i] == order[..i];
    if order[i] in broken {
      assert Failing(order[..i + 1], broken) == failing + [order[i]];
      assert (failing + [order[i]])[..|failing|] == failing;
    } else {
      assert Failing(order[..i + 1], broken) == failing + [] == failing;
    }
  }

  lemma {:induction false} ReactionKeeps(env: Env, s: Service, fd: Fd, lines: seq<string>)
    ensures var t := ReactedAll(env, s, fd, lines);
            && t == s.(pending := t.pending, failed := t.failed, subscribed := t.subscribed, log := t.log)
            && |t.log| == |s.log| + |lines|
            && (forall i :: 0 <= i < |s.log| ==> t.log[i] == s.log[i])
            && (forall i :: 0 <= i < |lines| ==> t.log[|s.log| + i] == Delivery(ConnOf(s, fd), lines[i]))
  {
    if lines != [] {
      var front, last := lines[..|lines| - 1], lines[|lines| - 1];
      ReactionKeeps(env, s, fd, front);
      var t := ReactedAll(env, s, fd, front);
      MarkingKeeps(t.(subscribed := Subscriptions(t.subscribed, fd, env.kind(last)),
                      log := t.log + [Delivery(ConnOf(t, fd), last)]), env.fails(|t.log|));
    }
  }

  lemma BuffersSettle(env: Env, s: Service, fd: Fd, lines: seq<string>)
    requires fd in s.buffers
    ensures var t := ReactedAll(env, s, fd, lines); t.(buffers := s.buffers[fd := s.buffers[fd]]) == t
  {
    ReactionKeeps(env, s, fd, lines);
    assert s.buffers[fd := s.buffers[fd]] == s.buffers;
  }

  lemma {:induction false} ClosingKeepsLog(s: Service, fds: seq<Fd>)
    ensures ClosedAll(s, fds).log == s.log && ClosedAll(s, fds).pending == s.pending
  {
    if fds != [] {
      ClosingKeepsLog(s, fds[..|fds| - 1]);
    }
  }

  lemma {:induction false} MarkingIgnoresBuffers(s: Service, fds: seq<Fd>, buffers: map<Fd, string>)
    requires buffers.Keys == s.buffers.Keys
    ensures MarkedAll(s.(buffers := buffers), fds) == MarkedAll(s, fds).(buffers := buffers)
  {
    if fds != [] {
      MarkingIgnoresBuffers(s, fds[..|fds| - 1], buffers);
      MarkingKeeps(s, fds[..|fds| - 1]);
    }
  }

  /** Answering a line does not depend on what the buffers hold. */
  lemma ReactionsIgnoreBuffers(env: Env, s: Service, fd: Fd, done: seq<string>, line: string, buffer: string)
    requires fd in s.buffers
    ensures var t := ReactedAll(env, s, fd, done);
            var buffers := s.buffers[fd := buffer];
            Reacted(env, t.(buffers := buffers), fd, line) == ReactedAll(env, s, fd, done + [line]).(buffers := buffers)
  {
    var t := ReactedAll(env, s, fd, done);
    var buffers := s.buffers[fd := buffer];
    ReactionKeeps(env, s, fd, done);
    assert (done + [line])[..|done|] == done;
    assert buffers.Keys == t.buffers.Keys;
    MarkingIgnoresBuffers(t.(subscribed := Subscriptions(t.subscribed, fd, env.kind(line)),
                             log := t.log + [Delivery(ConnOf(t, fd), line)]), env.fails(|t.log|), buffers);
  }
}
