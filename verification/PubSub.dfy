/** The Publisher and Subscriber objects, and what each callback hears. */
module PubSub {
  import opened Wire
  import opened Queues
  import opened SockAddr
  import opened Sockets

  // ---- the publisher ----

  /** The descriptor's history over one fan-out: every address is tried, whatever the sends before it
      came to. */
  function FanOut(c: Conn, data: Message, addrs: seq<Addr>, nums: seq<int>): Conn
    requires |nums| == |addrs|
  {
    if addrs == [] then c
    else
      var last := |addrs| - 1;
      Effect(FanOut(c, data, addrs[..last], nums[..last]), Op.SendTo(data, addrs[last], nums[last]))
  }

  class Publisher {
    const sock: Socket
    var clientaddrs: seq<Addr>

    constructor (transport: Transport)
      ensures sock.Valid() && fresh(sock) && sock.transport == transport && clientaddrs == []
    {
      sock := new Socket(transport);
      clientaddrs := [];
    }

    method RegisterAddr(c: Addr)
      modifies this
      ensures clientaddrs == old(clientaddrs) + [c]
    {
      clientaddrs := clientaddrs + [c];
    }

    method Publish(data: Message) returns (ghost nums: seq<int>)
      requires sock.Valid()
      modifies sock
      ensures sock.Valid() && |nums| == |clientaddrs|
      ensures sock.State() == FanOut(old(sock.State()), data, clientaddrs, nums)
    {
      nums := [];
      var i := 0;
      while i < |clientaddrs|
        invariant 0 <= i <= |clientaddrs| && sock.Valid() && |nums| == i
        invariant sock.State() == FanOut(old(sock.State()), data, clientaddrs[..i], nums)
      {
        var num := sock.SendTo(data, clientaddrs[i]);
        assert clientaddrs[..i + 1][..i] == clientaddrs[..i];
        assert (nums + [num])[..i] == nums;
        nums := nums + [num];
        i := i + 1;
      }
      assert clientaddrs[..i] == clientaddrs;
    }
  }

  /** A fan-out makes one send of the same data to each registered address, in order, and nothing else;
      no failure stops it or closes the socket. */
  lemma {:induction false} FanOutIsComplete(c: Conn, data: Message, addrs: seq<Addr>, nums: seq<int>)
    requires |nums| == |addrs|
    ensures var d := FanOut(c, data, addrs, nums);
            d.fd == c.fd && |d.log| == |c.log| + |addrs| && c.log <= d.log &&
            forall i :: 0 <= i < |addrs| ==> d.log[|c.log| + i] == Sent(c.fd, data, addrs[i], nums[i])
  {
    if addrs != [] {
      var last := |addrs| - 1;
      FanOutIsComplete(c, data, addrs[..last], nums[..last]);
    }
  }

  // ---- the subscriber ----

  /** A callback, by what a call of it puts out. */
  type Handler = Message -> Message

  /** One call of a callback: which registration, with which message, and what it put out. */
  datatype Call = Call(index: nat, msg: Message, out: Message)

  datatype Hearing = Hearing(callbacks: seq<Handler>, calls: seq<Call>)

  datatype SubOp = Register(f: Handler) | Receive(msg: Message)

  /** The first `n` callbacks, in the order of registration. */
  function CallAll(callbacks: seq<Handler>, msg: Message, n: nat): seq<Call>
    requires n <= |callbacks|
  {
    if n == 0 then [] else CallAll(callbacks, msg, n - 1) + [Call(n - 1, msg, callbacks[n - 1](msg))]
  }

  lemma {:induction false} CallAllInOrder(callbacks: seq<Handler>, msg: Message, n: nat)
    requires n <= |callbacks|
    ensures var calls := CallAll(callbacks, msg, n);
            |calls| == n && forall k :: 0 <= k < n ==> calls[k] == Call(k, msg, callbacks[k](msg))
  {
    if n > 0 {
      CallAllInOrder(callbacks, msg, n - 1);
    }
  }

  function Hear(h: Hearing, op: SubOp): Hearing {
    match op
    case Register(f) => h.(callbacks := h.callbacks + [f])
    case Receive(msg) => if msg == [] then h else h.(calls := h.calls + CallAll(h.callbacks, msg, |h.callbacks|))
  }

  /** A subscriber: its descriptor and its callbacks, with what each has heard. */
  datatype Listener = Listener(conn: Conn, hearing: Hearing)

  datatype Turn = AddCallback(f: Handler) | Serve(ev: Arrival<Addr>)

  /** One call of register_cb or of once, with the kernel's answer. A receive that throws calls nobody. */
  function Act(l: Listener, size: nat, turn: Turn): Listener {
    match turn
    case AddCallback(f) => l.(hearing := Hear(l.hearing, Register(f)))
    case Serve(ev) =>
      match RecvOutcome(l.conn.transport, ev, size)
      case Err(_) => l.(conn := Effect(l.conn, Op.Recv(ev)))
      case Ok(msg) => Listener(Effect(l.conn, Op.Recv(ev)), Hear(l.hearing, Receive(msg)))
  }

  class Subscriber {
    const sock: Socket
    const dataSize: nat
    var callbacks: seq<Handler>
    ghost var calls: seq<Call>

    ghost function State(): Listener
      reads this, sock
    {
      Listener(sock.State(), Hearing(callbacks, calls))
    }

    constructor (transport: Transport, size: nat)
      ensures sock.Valid() && fresh(sock) && sock.transport == transport && dataSize == size
      ensures State().hearing == Hearing([], []) && exists fd :: State().conn == Made(transport, fd)
    {
      sock := new Socket(transport);
      dataSize := size;
      callbacks := [];
      calls := [];
    }

    method RegisterCb(f: Handler)
      modifies this
      ensures State() == Act(old(State()), dataSize, AddCallback(f))
    {
      callbacks := callbacks + [f];
    }

    /** A message goes to every callback, and `outs` is what they put out. An empty message, which a timeout
        is on UDP, calls nobody. */
    method Once() returns (threw: bool, outs: seq<Message>, ghost ev: Arrival<Addr>)
      requires sock.Valid()
      modifies this, sock
      ensures sock.Valid() && threw == RecvOutcome(sock.transport, ev, dataSize).Err?
      ensures State() == Act(old(State()), dataSize, Serve(ev))
      ensures Received(ev, dataSize) == [] ==> outs == []
      ensures Received(ev, dataSize) != [] ==>
                !threw && |outs| == |callbacks| &&
                forall i :: 0 <= i < |outs| ==> outs[i] == callbacks[i](Received(ev, dataSize))
    {
      outs := [];
      var r;
      r, ev := sock.Recv(dataSize);
      threw := r.Err?;
      if r.Err? {
        return;
      }
      if |r.value| == 0 {
        assert Received(ev, dataSize) == [];
        return;
      }
      var msg := r.value;
      var i := 0;
      while i < |callbacks|
        invariant 0 <= i <= |callbacks| && callbacks == old(callbacks)
        invariant calls == old(calls) + CallAll(callbacks, msg, i)
        invariant |outs| == i && forall k :: 0 <= k < i ==> outs[k] == callbacks[k](msg)
        modifies this`calls
      {
        var out := callbacks[i](msg);
        outs := outs + [out];
        calls := calls + [Call(i, msg, out)];
        i := i + 1;
      }
    }
  }

  function HearAll(h: Hearing, ops: seq<SubOp>): Hearing {
    if ops == [] then h else Hear(HearAll(h, ops[..|ops| - 1]), ops[|ops| - 1])
  }

  /** What one registration hears. */
  function ByIndex(i: nat): Call -> Option<Message> {
    (c: Call) => if c.index == i then Some(c.msg) else None
  }

  function Heard(h: Hearing, i: nat): seq<Message> {
    Pick(h.calls, ByIndex(i))
  }

  function NonEmpty(op: SubOp): Option<Message> {
    if op.Receive? && op.msg != [] then Some(op.msg) else None
  }

  lemma {:induction false} CallAllOnce(callbacks: seq<Handler>, msg: Message, n: nat, i: nat)
    requires n <= |callbacks|
    ensures Pick(CallAll(callbacks, msg, n), ByIndex(i)) == if i < n then [msg] else []
  {
    if n > 0 {
      CallAllOnce(callbacks, msg, n - 1, i);
      PickAppend(CallAll(callbacks, msg, n - 1), Call(n - 1, msg, callbacks[n - 1](msg)), ByIndex(i));
    }
  }

  lemma HearStep(h: Hearing, op: SubOp, i: nat)
    ensures Heard(Hear(h, op), i) ==
            if i < |h.callbacks| && NonEmpty(op).Some? then Heard(h, i) + [NonEmpty(op).value] else Heard(h, i)
  {
    if op.Receive? && op.msg != [] {
      CallAllOnce(h.callbacks, op.msg, |h.callbacks|, i);
      PickConcat(h.calls, CallAll(h.callbacks, op.msg, |h.callbacks|), ByIndex(i));
    }
  }

  /** Over any run, the i-th callback hears exactly the non-empty messages received since it was
      registered, each once and in order. */
  lemma {:induction false} HeardSince(h: Hearing, ops: seq<SubOp>, i: nat)
    requires i < |h.callbacks|
    ensures Heard(HearAll(h, ops), i) == Heard(h, i) + Pick(ops, NonEmpty)
    ensures h.callbacks <= HearAll(h, ops).callbacks
  {
    if ops != [] {
      var init, op := ops[..|ops| - 1], ops[|ops| - 1];
      HeardSince(h, init, i);
      HearStep(HearAll(h, init), op, i);
      PickAppend(init, op, NonEmpty);
      assert init + [op] == ops;
    }
  }

  /** Every call in the log was made with a registered callback, and shows what that call put out. */
  ghost predicate Genuine(h: Hearing) {
    forall k :: 0 <= k < |h.calls| ==>
      var c := h.calls[k];
      c.index < |h.callbacks| && c.out == h.callbacks[c.index](c.msg)
  }

  lemma HearGenuine(h: Hearing, op: SubOp)
    requires Genuine(h)
    ensures Genuine(Hear(h, op))
  {
    if op.Receive? {
      CallAllInOrder(h.callbacks, op.msg, |h.callbacks|);
    }
  }

  lemma {:induction false} CallsAreGenuine(h: Hearing, ops: seq<SubOp>)
    requires Genuine(h)
    ensures Genuine(HearAll(h, ops))
  {
    if ops != [] {
      CallsAreGenuine(h, ops[..|ops| - 1]);
      HearGenuine(HearAll(h, ops[..|ops| - 1]), ops[|ops| - 1]);
    }
  }

  /** The object after a run from the start, and the number of callbacks registered in it. */
  function After(ops: seq<SubOp>): Hearing {
    HearAll(Hearing([], []), ops)
  }

  function Registered(ops: seq<SubOp>): nat {
    |After(ops).callbacks|
  }

  lemma {:induction false} UnheardBefore(ops: seq<SubOp>, i: nat)
    requires i >= Registered(ops)
    ensures Heard(After(ops), i) == []
  {
    if ops != [] {
      var init := ops[..|ops| - 1];
      UnheardBefore(init, i);
      HearStep(After(init), ops[|ops| - 1], i);
    }
  }

  lemma {:induction false} HearAllConcat(h: Hearing, ops: seq<SubOp>, more: seq<SubOp>)
    ensures HearAll(h, ops + more) == HearAll(HearAll(h, ops), more)
  {
    if more == [] {
      assert ops + more == ops;
    } else {
      var init := more[..|more| - 1];
      HearAllConcat(h, ops, init);
      assert (ops + more)[..|ops + more| - 1] == ops + init;
    }
  }

  /** A callback registered after `ops` hears the non-empty messages of `more`. */
  lemma HeardAfterRegistration(ops: seq<SubOp>, f: Handler, more: seq<SubOp>)
    ensures Heard(After(ops + [Register(f)] + more), Registered(ops)) == Pick(more, NonEmpty)
  {
    var h := After(ops);
    var i := Registered(ops);
    UnheardBefore(ops, i);
    HearStep(h, Register(f), i);
    assert (ops + [Register(f)])[..|ops|] == ops;
    HearAllConcat(Hearing([], []), ops + [Register(f)], more);
    HeardSince(Hear(h, Register(f)), more, i);
  }

  /** Of two callbacks, the earlier one's log extends the later one's at the front, by the messages
      received between the two registrations and by no others. */
  lemma CallbacksAgree(ops: seq<SubOp>, f: Handler, between: seq<SubOp>, g: Handler, more: seq<SubOp>, all: seq<SubOp>)
    requires all == ops + [Register(f)] + between + [Register(g)] + more
    ensures var i, j := Registered(ops), Registered(ops + [Register(f)] + between);
            Heard(After(all), j) == Pick(more, NonEmpty) &&
            Heard(After(all), i) == Pick(between, NonEmpty) + Heard(After(all), j)
  {
    var later := between + [Register(g)] + more;
    assert all == ops + [Register(f)] + later;
    HeardAfterRegistration(ops, f, later);
    HeardAfterRegistration(ops + [Register(f)] + between, g, more);
    PickRegister(between, g, more);
  }

  lemma PickRegister(ops: seq<SubOp>, g: Handler, more: seq<SubOp>)
    ensures Pick(ops + [Register(g)] + more, NonEmpty) == Pick(ops, NonEmpty) + Pick(more, NonEmpty)
  {
    PickConcat(ops + [Register(g)], more, NonEmpty);
    PickAppend(ops, Register(g), NonEmpty);
  }
}
