/** The descriptor a socket object owns, the two datagram transports, and address dispatch.
    SocketUDP and SocketUnix are the two values of `transport`. The kernel's answers are arbitrary. */
module Sockets {
  import opened Wire
  import opened Text
  import opened Queues
  import opened Regex
  import opened Patterns
  import opened Scanner
  import opened SockAddr

  const SOCKET_ERR := -1

  datatype ConType = CONNECT | BIND

  /** One system call, with the descriptor it named, if any, and what came of it. */
  datatype KernelCall =
    | Opened(fd: int)
    | Closed(fd: int)
    | Tuned(fd: int, err: int)
    | Attached(fd: int, addr: Addr, kind: ConType, err: int)
    | Unlinked(path: string)
    | Sent(fd: int, data: Message, to: Addr, num: int)
    | Got(fd: int, ev: Arrival<Addr>)

  // ---- dispatch on an address text ----

  datatype Branch = Invalid | ToUnix(addr: Addr, unlinked: string) | ToInet(addr: Addr) | Throws(failure: Failure)

  /** setSocket searches the text with the same pattern again, then asks the parser for the address. */
  function Dispatch(libc: Libc, address: string): Branch {
    match Search(PROTO, address)
    case None => Invalid
    case Some(m) =>
      match Filtered(libc, address)
      case Err(f) => Throws(f)
      case Ok(a) => if m.first == "unix" then ToUnix(a, m.second) else ToInet(a)
  }

  /** The dispatcher and the parser agree on every text. */
  lemma DispatchAgrees(libc: Libc, s: string)
    ensures Dispatch(libc, s).Invalid? <==> forall i, k, e :: 0 <= i <= |s| ==> !ProtoAt(s, i, k, e)
    ensures Dispatch(libc, s).Invalid? ==> Filtered(libc, s) == Ok(Error)
    ensures Dispatch(libc, s).ToUnix? <==> Filtered(libc, s).Ok? && Filtered(libc, s).value.Unix?
    ensures Dispatch(libc, s).ToInet? ==> !Dispatch(libc, s).addr.Unix?
    ensures Dispatch(libc, s).ToUnix? ==> UnixText(Dispatch(libc, s).addr) == Dispatch(libc, s).unlinked
    ensures forall f :: Dispatch(libc, s) == Throws(f) <==> Filtered(libc, s) == Err(f)
  {
    ProtoSearchFails(s);
    if Search(PROTO, s).Some? {
      ProtoCaptures(s);
      var path := Search(PROTO, s).value.second;
      if |path| <= SUN_PATH {
        SpanIs(NotNul, NulPadded(path), 0, |path|);
        assert NulPadded(path)[..|path|] == path;
      }
    }
  }

  // ---- what every operation does to the object, as a function ----

  datatype Conn = Conn(transport: Transport, fd: int, log: seq<KernelCall>)

  /** The public operations, each with the kernel's answer. */
  datatype Op =
    | Tune(err: int)                                              // settimeout, setnonblocking, setsockopt, getsockname
    | RecvFrom(wantFrom: bool, ev: Arrival<Addr>)
    | Recv(ev: Arrival<Addr>)
    | SendTo(data: Message, to: Addr, num: int)
    | SetSocket(address: string, kind: ConType, err: int)         // bind, connect
    | Close

  /** The kernel refuses every call that names descriptor -1. */
  predicate Possible(c: Conn, op: Op) {
    c.fd == SOCKET_ERR ==>
      match op
      case Tune(err) => err == -1
      case RecvFrom(_, ev) => ev.Timeout?
      case Recv(ev) => ev.Timeout?
      case SendTo(_, _, num) => num == -1
      case SetSocket(_, _, err) => err == -1
      case Close => true
  }

  function Shut(c: Conn): Conn {
    if c.fd != SOCKET_ERR then Conn(c.transport, SOCKET_ERR, c.log + [Closed(c.fd)]) else c
  }

  function Guarded(c: Conn, err: int): Conn {
    if err < 0 then Shut(c) else c
  }

  function Logged(c: Conn, k: KernelCall): Conn {
    c.(log := c.log + [k])
  }

  function Effect(c: Conn, op: Op): Conn
    requires !op.SetSocket?
  {
    match op
    case Tune(err) => Guarded(Logged(c, Tuned(c.fd, err)), err)
    case RecvFrom(wantFrom, ev) =>
      if c.transport.Unix? && !wantFrom then c else Logged(c, Got(c.fd, ev))
    case Recv(ev) =>
      if c.transport.Unix? && ev.Timeout? then Shut(Logged(c, Got(c.fd, ev))) else Logged(c, Got(c.fd, ev))
    case SendTo(data, to, num) => Logged(c, Sent(c.fd, data, to, num))
    case Close => Shut(c)
  }

  function Attach(libc: Libc, c: Conn, address: string, kind: ConType, err: int): Conn {
    match Dispatch(libc, address)
    case Invalid => Shut(c)
    case Throws(_) => c
    case ToUnix(a, path) => Guarded(Logged(Logged(c, Unlinked(path)), Attached(c.fd, a, kind, err)), err)
    case ToInet(a) => Guarded(Logged(c, Attached(c.fd, a, kind, err)), err)
  }

  function Do(libc: Libc, c: Conn, op: Op): Conn {
    if op.SetSocket? then Attach(libc, c, op.address, op.kind, op.err) else Effect(c, op)
  }

  /** Whether the operation leaves by an exception. */
  predicate Raises(libc: Libc, c: Conn, op: Op) {
    match op
    case Tune(err) => err < 0
    case Recv(ev) => RecvOutcome(c.transport, ev, 0).Err?
    case SetSocket(address, _, err) =>
      var b := Dispatch(libc, address);
      b.Invalid? || b.Throws? || err < 0
    case _ => false
  }

  /** The calls that give back a descriptor, if one is held. */
  function Closing(fd: int): seq<KernelCall> {
    if fd == -1 then [] else [Closed(fd)]
  }

  lemma AttachMisses(libc: Libc, c: Conn, address: string, kind: ConType, err: int)
    requires Search(PROTO, address) == None
    ensures Attach(libc, c, address, kind, err) == Conn(c.transport, -1, c.log + Closing(c.fd))
  {
    assert c.log + [] == c.log;
  }

  /** bind and connect on a text with an address: for a Unix address the path is unlinked first, then the kernel is
      asked once, and only its refusal closes. */
  lemma AttachReaches(libc: Libc, c: Conn, address: string, kind: ConType, err: int, a: Addr)
    requires Search(PROTO, address) != None && Filtered(libc, address) == Ok(a)
    ensures Attach(libc, c, address, kind, err) ==
            Conn(c.transport, if err < 0 then -1 else c.fd,
                 c.log + (if a.Unix? then [Unlinked(UnixText(a))] else []) + [Attached(c.fd, a, kind, err)] +
                 (if err < 0 then Closing(c.fd) else []))
  {
    DispatchAgrees(libc, address);
    DispatchReaches(libc, address, a);
    var log := c.log + (if a.Unix? then [Unlinked(UnixText(a))] else []) + [Attached(c.fd, a, kind, err)];
    assert c.log + [] == c.log && log + [] == log;
  }

  lemma DispatchReaches(libc: Libc, address: string, a: Addr)
    requires Search(PROTO, address) != None && Filtered(libc, address) == Ok(a)
    ensures var b := Dispatch(libc, address);
            if a.Unix? then b == ToUnix(a, UnixText(a)) else b == ToInet(a)
  {
    DispatchAgrees(libc, address);
  }

  /** What bind and connect make of an object, without the dispatcher: a text without an address closes it and
      throws; a port that stoi rejects throws and changes nothing; otherwise the kernel is asked once about the
      parser's address, after the path of a Unix address was unlinked, and its refusal closes and throws. */
  ghost predicate SetExactly(libc: Libc, address: string, kind: ConType, err: int, c: Conn, d: Conn, threw: bool) {
    if Search(PROTO, address) == None then threw && d == Conn(c.transport, -1, c.log + Closing(c.fd))
    else
      match Filtered(libc, address)
      case Err(f) => f == PathOverrun || (threw && d == c)
      case Ok(a) =>
        threw == (err < 0) &&
        d == Conn(c.transport, if threw then -1 else c.fd,
                  c.log + (if a.Unix? then [Unlinked(UnixText(a))] else []) + [Attached(c.fd, a, kind, err)] +
                  (if threw then Closing(c.fd) else []))
  }

  lemma SetsExactly(libc: Libc, c: Conn, op: Op)
    requires op.SetSocket?
    ensures SetExactly(libc, op.address, op.kind, op.err, c, Do(libc, c, op), Raises(libc, c, op))
  {
    DispatchAgrees(libc, op.address);
    if Search(PROTO, op.address) == None {
      AttachMisses(libc, c, op.address, op.kind, op.err);
    } else if Filtered(libc, op.address).Ok? {
      var a := Filtered(libc, op.address).value;
      DispatchReaches(libc, op.address, a);
      AttachReaches(libc, c, op.address, op.kind, op.err, a);
    }
  }

  // ---- the life of a descriptor ----

  ghost predicate UsesOnly(calls: seq<KernelCall>, fd: int) {
    forall i :: 0 <= i < |calls| ==> Uses(calls[i], fd)
  }

  predicate Uses(call: KernelCall, fd: int) {
    call.Unlinked? || (call.fd == fd && !call.Opened? && !call.Closed?)
  }

  /** The descriptor from socket() is held, and every call since then used it. */
  ghost predicate Live(c: Conn) {
    c.fd >= 0 && c.log != [] && c.log[0] == Opened(c.fd) && UsesOnly(c.log[1..], c.fd)
  }

  /** The descriptor was given back at step `k`, once; no later call named it. If socket() failed there
      was none to give back and `k` is 0. */
  ghost predicate Dead(c: Conn, k: nat) {
    c.fd == SOCKET_ERR && k < |c.log| && c.log[0].Opened? && UsesOnly(c.log[k + 1..], SOCKET_ERR) &&
    if k == 0 then c.log[0].fd == SOCKET_ERR
    else c.log[0].fd >= 0 && c.log[k] == Closed(c.log[0].fd) && UsesOnly(c.log[1..k], c.log[0].fd)
  }

  ghost predicate Disciplined(c: Conn) {
    Live(c) || exists k: nat :: Dead(c, k)
  }

  lemma LoggedKeeps(c: Conn, call: KernelCall)
    requires Disciplined(c) && Uses(call, c.fd)
    ensures Disciplined(Logged(c, call))
    ensures Live(c) ==> Live(Logged(c, call))
  {
    var d := Logged(c, call);
    if Live(c) {
      assert d.log[1..] == c.log[1..] + [call];
    } else {
      var k: nat :| Dead(c, k);
      assert d.log[k + 1..] == c.log[k + 1..] + [call];
      assert k > 0 ==> d.log[1..k] == c.log[1..k];
      assert Dead(d, k);
    }
  }

  lemma ShutKeeps(c: Conn)
    requires Disciplined(c)
    ensures Disciplined(Shut(c)) && Shut(c).fd == SOCKET_ERR
  {
    if Live(c) {
      var d := Shut(c);
      var k := |c.log|;
      assert d.log[1..k] == c.log[1..];
      assert d.log[k + 1..] == [];
      assert Dead(d, k);
    }
  }

  lemma EffectKeeps(c: Conn, op: Op)
    requires Disciplined(c) && !op.SetSocket?
    ensures Disciplined(Effect(c, op))
    ensures c.fd == SOCKET_ERR ==> Effect(c, op).fd == SOCKET_ERR
  {
    ShutKeeps(c);
    if !op.Close? {
      var call := match op
        case Tune(err) => Tuned(c.fd, err)
        case RecvFrom(_, ev) => Got(c.fd, ev)
        case Recv(ev) => Got(c.fd, ev)
        case SendTo(data, to, num) => Sent(c.fd, data, to, num);
      LoggedKeeps(c, call);
      ShutKeeps(Logged(c, call));
    }
  }

  lemma DoKeeps(libc: Libc, c: Conn, op: Op)
    requires Disciplined(c)
    ensures Disciplined(Do(libc, c, op))
    ensures c.fd == SOCKET_ERR ==> Do(libc, c, op).fd == SOCKET_ERR
  {
    if op.SetSocket? {
      ShutKeeps(c);
      var b := Dispatch(libc, op.address);
      if b.ToUnix? || b.ToInet? {
        var d := if b.ToUnix? then Logged(c, Unlinked(b.unlinked)) else c;
        LoggedKeeps(c, Unlinked(if b.ToUnix? then b.unlinked else ""));
        LoggedKeeps(d, Attached(c.fd, b.addr, op.kind, op.err));
        ShutKeeps(Logged(d, Attached(c.fd, b.addr, op.kind, op.err)));
      }
    } else {
      EffectKeeps(c, op);
    }
  }

  function Run(libc: Libc, c: Conn, ops: seq<Op>): Conn
    decreases |ops|
  {
    if ops == [] then c else Run(libc, Do(libc, c, ops[0]), ops[1..])
  }

  /** What the constructor leaves when socket() answered `fd`. */
  function Made(t: Transport, fd: int): Conn {
    Conn(t, if fd < 0 then SOCKET_ERR else fd, [Opened(if fd < 0 then SOCKET_ERR else fd)])
  }

  lemma {:induction false} RunKeeps(libc: Libc, c: Conn, ops: seq<Op>)
    requires Disciplined(c)
    ensures Disciplined(Run(libc, c, ops))
    ensures c.fd == SOCKET_ERR ==> Run(libc, c, ops).fd == SOCKET_ERR
    decreases |ops|
  {
    if ops != [] {
      DoKeeps(libc, c, ops[0]);
      RunKeeps(libc, Do(libc, c, ops[0]), ops[1..]);
    }
  }

  /** Over any life of the object, with any answers of the kernel, its descriptor is closed exactly once
      by the end of the destructor, is not named afterwards, and no other descriptor is ever named. */
  lemma Lifecycle(libc: Libc, t: Transport, fd: int, ops: seq<Op>)
    ensures var end := Shut(Run(libc, Made(t, fd), ops));
            exists k: nat :: Dead(end, k) && (k == 0 <==> fd < 0)
  {
    var c := Made(t, fd);
    if fd < 0 {
      assert Dead(c, 0);
    } else {
      assert Live(c);
    }
    RunKeeps(libc, c, ops);
    var d := Run(libc, c, ops);
    ShutKeeps(d);
    RunStart(libc, c, ops);
  }

  lemma DoLogs(libc: Libc, c: Conn, op: Op)
    ensures c.log <= Do(libc, c, op).log
  {
  }

  lemma {:induction false} RunStart(libc: Libc, c: Conn, ops: seq<Op>)
    requires c.log != []
    ensures |Run(libc, c, ops).log| >= |c.log| && Run(libc, c, ops).log[0] == c.log[0]
    decreases |ops|
  {
    if ops != [] {
      DoLogs(libc, c, ops[0]);
      RunStart(libc, Do(libc, c, ops[0]), ops[1..]);
    }
  }

  lemma AttachClosed(libc: Libc, c: Conn, address: string, kind: ConType, err: int)
    requires c.fd == SOCKET_ERR
    ensures var d := Attach(libc, c, address, kind, err);
            d.fd == SOCKET_ERR && c.log <= d.log && UsesOnly(d.log[|c.log|..], SOCKET_ERR)
  {
  }

  lemma ClosedStep(libc: Libc, c: Conn, op: Op)
    requires c.fd == SOCKET_ERR
    ensures var d := Do(libc, c, op);
            d.fd == SOCKET_ERR && c.log <= d.log && UsesOnly(d.log[|c.log|..], SOCKET_ERR)
  {
    var d := Do(libc, c, op);
    DoLogs(libc, c, op);
    if op.SetSocket? {
      AttachClosed(libc, c, op.address, op.kind, op.err);
    }
  }

  /** After a failed guard the object stays closed, whatever is called next, and no later system call names
      a descriptor. */
  lemma {:induction false} ClosedForGood(libc: Libc, c: Conn, ops: seq<Op>)
    requires c.fd == SOCKET_ERR
    ensures var d := Run(libc, c, ops);
            d.fd == SOCKET_ERR && c.log <= d.log && UsesOnly(d.log[|c.log|..], SOCKET_ERR)
    decreases |ops|
  {
    if ops == [] {
      assert c.log[|c.log|..] == [];
    } else {
      var e := Do(libc, c, ops[0]);
      ClosedStep(libc, c, ops[0]);
      ClosedForGood(libc, e, ops[1..]);
      var d := Run(libc, c, ops);
      assert d.log[|c.log|..] == e.log[|c.log|..] + d.log[|e.log|..];
    }
  }

  /** With a kernel that refuses descriptor -1, every option change, bind, connect and Unix receive after
      that throws, however long ago the guard failed. */
  lemma ClosedRaises(libc: Libc, c: Conn, ops: seq<Op>, op: Op)
    requires c.fd == SOCKET_ERR && Possible(Run(libc, c, ops), op)
    ensures Raises(libc, Run(libc, c, ops), op) <==>
            op.Tune? || op.SetSocket? || (op.Recv? && Run(libc, c, ops).transport.Unix?)
    ensures op.SendTo? ==> op.num == -1
  {
    ClosedForGood(libc, c, ops);
  }

  // ---- the kernel ----

  method AnyResult(fd: int) returns (err: int)
    ensures -1 <= err && (fd == SOCKET_ERR ==> err == -1)
  {
    err := *;
    if err < -1 || fd == SOCKET_ERR {
      err := -1;
    }
  }

  /** A receive into `buf`: -1, or one datagram of which as much is copied as there is room for. */
  method AnyReceive(fd: int, buf: array<byte>) returns (num: int, from: Option<Addr>, ghost ev: Arrival<Addr>)
    modifies buf
    ensures fd == SOCKET_ERR ==> ev.Timeout?
    ensures ev.Timeout? ==> num == -1 && from == None && buf[..] == old(buf[..])
    ensures ev.Datagram? ==>
              from == Some(ev.from) && num == (if |ev.data| < buf.Length then |ev.data| else buf.Length) &&
              buf[..] == ev.data[..num] + old(buf[..])[num..]
  {
    var answered: bool := *;
    if !answered || fd == SOCKET_ERR {
      return -1, None, Timeout;
    }
    var data: Message := *;
    var sender: Addr := *;
    ev := Datagram(sender, data);
    num := if |data| < buf.Length then |data| else buf.Length;
    CopyInto(buf, data[..num]);
    from := Some(sender);
  }

  lemma FilledBuffer(ev: Arrival<Addr>, size: nat, buf: Message)
    requires |buf| == size
    requires ev.Datagram? ==>
               var num := if |ev.data| < size then |ev.data| else size;
               buf == ev.data[..num] + Zeros(size)[num..]
    ensures ev.Datagram? && ev.data != [] && size > 0 ==> buf == Received(ev, size)
  {
    if ev.Datagram? && |ev.data| < size {
      assert Zeros(size)[|ev.data|..] == Zeros(size - |ev.data|);
    }
  }

  // ---- the class ----

  class Socket {
    const transport: Transport
    var socketFd: int
    ghost var log: seq<KernelCall>

    ghost function State(): Conn
      reads this
    {
      Conn(transport, socketFd, log)
    }

    ghost predicate Valid()
      reads this
    {
      Disciplined(State())
    }

    /** makeSocket: when socket() fails the source's constructor throws, and nothing is to be closed. */
    constructor (transport: Transport)
      ensures Valid() && this.transport == transport
      ensures exists fd :: State() == Made(transport, fd)
      ensures socketFd >= -1 && log == [Opened(socketFd)]
    {
      var fd: int := *;
      if fd < 0 {
        fd := SOCKET_ERR;
      }
      this.transport := transport;
      socketFd := fd;
      log := [Opened(fd)];
      new;
      assert State() == Made(transport, fd);
      if fd < 0 {
        assert Dead(State(), 0);
      } else {
        assert Live(State());
      }
    }

    method Shutdown()
      requires Valid()
      modifies this
      ensures Valid() && State() == Shut(old(State()))
      ensures socketFd == -1 && log == old(log) + Closing(old(socketFd))
    {
      ShutKeeps(State());
      if socketFd != SOCKET_ERR {
        log := log + [Closed(socketFd)];
        socketFd := SOCKET_ERR;
      }
    }

    method Guard(err: int) returns (threw: bool)
      requires Valid()
      modifies this
      ensures Valid() && State() == Guarded(old(State()), err) && threw == (err < 0)
      ensures socketFd == (if threw then -1 else old(socketFd))
      ensures log == old(log) + (if threw then Closing(old(socketFd)) else [])
    {
      threw := err < 0;
      if err < 0 {
        Shutdown();
      }
    }

    method SetOption() returns (threw: bool, ghost op: Op)
      requires Valid()
      modifies this
      ensures Valid() && op.Tune? && forall libc :: threw == Raises(libc, old(State()), op)
      ensures Possible(old(State()), op) && State() == Effect(old(State()), op)
      ensures threw == (op.err < 0) && socketFd == (if threw then -1 else old(socketFd))
      ensures log == old(log) + [Tuned(old(socketFd), op.err)] + (if threw then Closing(old(socketFd)) else [])
    {
      var err := AnyResult(socketFd);
      op := Tune(err);
      LoggedKeeps(State(), Tuned(socketFd, err));
      log := log + [Tuned(socketFd, err)];
      threw := Guard(err);
    }

    /** The buffer is never shrunk to the bytes received, only emptied. */
    method RecvFrom(msgSize: nat, wantFrom: bool) returns (dst: Message, from: Option<Addr>, ghost ev: Arrival<Addr>)
      requires Valid()
      modifies this
      ensures Valid() && Possible(old(State()), Op.RecvFrom(wantFrom, ev))
      ensures State() == Effect(old(State()), Op.RecvFrom(wantFrom, ev))
      ensures socketFd == old(socketFd)
      ensures log == old(log) + (if transport.Unix? && !wantFrom then [] else [Got(old(socketFd), ev)])
      ensures dst == Received(ev, msgSize)
      ensures from == if wantFrom && ev.Datagram? then Some(ev.from) else None
    {
      if transport.Unix? && !wantFrom {
        return [], None, Timeout;
      }
      var buf := new byte[msgSize](_ => 0);
      assert buf[..] == Zeros(msgSize);
      var num, sender;
      num, sender, ev := AnyReceive(socketFd, buf);
      LoggedKeeps(State(), Got(socketFd, ev));
      log := log + [Got(socketFd, ev)];
      from := if wantFrom then sender else None;
      dst := buf[..];
      FilledBuffer(ev, msgSize, dst);
      if num == -1 || num == 0 {
        dst := [];
      }
    }

    /** SocketUDP::recv turns a timeout into an empty message; SocketUnix::recv closes the socket and throws. */
    method Recv(msgSize: nat) returns (r: Result<Message, ()>, ghost ev: Arrival<Addr>)
      requires Valid()
      modifies this
      ensures Valid() && Possible(old(State()), Op.Recv(ev))
      ensures State() == Effect(old(State()), Op.Recv(ev))
      ensures r == RecvOutcome(transport, ev, msgSize)
      ensures r.Err? <==> transport.Unix? && ev.Timeout?
      ensures socketFd == if r.Err? then -1 else old(socketFd)
      ensures log == old(log) + [Got(old(socketFd), ev)] + (if r.Err? then Closing(old(socketFd)) else [])
    {
      if transport.Udp? {
        var m, none;
        m, none, ev := RecvFrom(msgSize, false);
        return Ok(m), ev;
      }
      var buf := new byte[msgSize](_ => 0);
      assert buf[..] == Zeros(msgSize);
      var num, sender;
      num, sender, ev := AnyReceive(socketFd, buf);
      LoggedKeeps(State(), Got(socketFd, ev));
      log := log + [Got(socketFd, ev)];
      var threw := Guard(num);
      if threw {
        return Err(()), ev;
      }
      var dst := buf[..];
      FilledBuffer(ev, msgSize, dst);
      if num == -1 || num == 0 {
        dst := [];
      }
      r := Ok(dst);
    }

    /** The guard gets a truth value, which is never negative: a failed send is only a lost message. */
    method SendTo(data: Message, to: Addr) returns (num: int)
      requires Valid()
      modifies this
      ensures Valid() && Possible(old(State()), Op.SendTo(data, to, num))
      ensures State() == Effect(old(State()), Op.SendTo(data, to, num))
      ensures socketFd == old(socketFd) && log == old(log) + [Sent(old(socketFd), data, to, num)]
    {
      num := AnyResult(socketFd);
      LoggedKeeps(State(), Sent(socketFd, data, to, num));
      log := log + [Sent(socketFd, data, to, num)];
      var mismatch := if |data| != num then 1 else 0;
      var threw := Guard(mismatch);
    }

    /** bind and connect. A number that stoi rejects throws before the kernel is asked and leaves the
        descriptor open; every other failure closes it. Nothing is promised of a path that is written past
        the end of sun_path. */
    method SetSocket(libc: Libc, address: string, kind: ConType) returns (threw: bool, ghost op: Op)
      requires Valid()
      modifies this
      ensures Dispatch(libc, address) != Throws(PathOverrun) ==>
                Valid() && op.SetSocket? && op.address == address && op.kind == kind &&
                Possible(old(State()), op) && State() == Do(libc, old(State()), op) &&
                threw == Raises(libc, old(State()), op)
      ensures op.SetSocket? && SetExactly(libc, address, kind, op.err, old(State()), State(), threw)
    {
      op := Op.SetSocket(address, kind, -1);
      DoKeeps(libc, State(), op);
      SetsExactly(libc, State(), op);
      var m := ScanProto(address);
      if m.None? {
        threw := Guard(-1);
        return;
      }
      var filtered := Filter(libc, address);
      if filtered.Err? {
        return true, op;
      }
      ProtoCaptures(address);
      var addr := filtered.value;
      if m.value.first == "unix" {
        LoggedKeeps(State(), Unlinked(m.value.second));
        log := log + [Unlinked(m.value.second)];
      }
      var err := AnyResult(socketFd);
      op := Op.SetSocket(address, kind, err);
      LoggedKeeps(State(), Attached(socketFd, addr, kind, err));
      log := log + [Attached(socketFd, addr, kind, err)];
      threw := Guard(err);
      SetsExactly(libc, old(State()), op);
    }
  }
}
