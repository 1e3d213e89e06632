/** Every run of the call system is, seen from each client and each server, a run of its object: the same
    system calls in the same order, as whole calls of `request` and `once`, the last perhaps half done. */
module CallObjects {
  import opened Wire
  import opened Queues
  import opened SockAddr
  import opened Sockets
  import opened RequestReply
  import opened Calls
  import opened CallHistory

  // ---- clients ----

  /** The system calls a step makes on the socket of client `c`, which socket() gave the descriptor `fd`.
      `at` gives the socket address of each number. */
  function ClientCalls(e: Env, s: State, a: Action, c: nat, at: nat -> Addr, fd: nat): seq<KernelCall> {
    match a
    case Send(x, msg, addr, accepted) =>
      if x != c || x >= |s.clients| then []
      else if s.clients[x].status.Closed? then [Sent(SOCKET_ERR, msg, at(addr), -1), Got(SOCKET_ERR, Timeout)]
      else [Sent(fd, msg, at(addr), if accepted then |msg| else -1)]
    case Deliver(k) =>
      if k < |s.replies| && s.replies[k].dst == c then [Got(fd, Datagram(at(s.replies[k].src), s.replies[k].data))]
      else []
    case Expire(x) =>
      if x != c then [] else if e.transport.Unix? then [Got(fd, Timeout), Sockets.Closed(fd)] else [Got(fd, Timeout)]
    case _ => []
  }

  function ClientLog(e: Env, states: seq<State>, actions: seq<Action>, n: nat, c: nat, at: nat -> Addr, fd: nat)
    : seq<KernelCall>
    requires n <= |actions| && n < |states|
  {
    if n == 0 then [Opened(fd)]
    else ClientLog(e, states, actions, n - 1, c, at, fd) + ClientCalls(e, states[n - 1], actions[n - 1], c, at, fd)
  }

  /** The object's descriptor after calls of request. */
  function Requests(c: Conn, xs: seq<Exchange>): Conn {
    if xs == [] then c else RequestEffect(Requests(c, xs[..|xs| - 1]), xs[|xs| - 1])
  }

  lemma RequestsAppend(c: Conn, xs: seq<Exchange>, x: Exchange)
    ensures Requests(c, xs + [x]) == RequestEffect(Requests(c, xs), x)
  {
    assert (xs + [x])[..|xs|] == xs;
  }

  lemma RefusingAppend(c: Conn, xs: seq<Exchange>, x: Exchange)
    requires Refusing(c, xs) && (Requests(c, xs).fd == SOCKET_ERR ==> Refused(x))
    ensures Refusing(c, xs + [x])
  {
    assert (xs + [x])[..|xs|] == xs;
  }

  /** The kernel refuses a closed socket. */
  ghost predicate Refusing(c: Conn, xs: seq<Exchange>) {
    xs == [] ||
    (var init, x := xs[..|xs| - 1], xs[|xs| - 1];
     Refusing(c, init) && (Requests(c, init).fd == SOCKET_ERR ==> Refused(x)))
  }

  /** What the step system records of a call is what its object's receive gives. */
  predicate SameOutcome(o: Outcome, t: Transport, x: Exchange, size: nat) {
    RecvOutcome(t, x.ev, size) == if o.Threw? then Err(()) else Ok(o.msg)
  }

  predicate SameRequest(a: Ask, x: Exchange, at: nat -> Addr) {
    x.msg == a.msg && x.to == at(a.addr)
  }

  ghost predicate SameCalls(cl: Client, t: Transport, xs: seq<Exchange>, at: nat -> Addr) {
    |xs| == |cl.got| <= |cl.asked| &&
    forall j :: 0 <= j < |xs| ==> SameRequest(cl.asked[j], xs[j], at) && SameOutcome(cl.got[j], t, xs[j], cl.size)
  }

  /** `d` is the object after the calls `xs`, and after the send `half` when the client waits. */
  ghost predicate ClientIs(cl: Client, t: Transport, fd: nat, d: Conn, xs: seq<Exchange>, half: Exchange,
                           at: nat -> Addr)
  {
    SameCalls(cl, t, xs, at) && Refusing(Made(t, fd), xs) && (cl.status.Closed? ==> t.Unix?) &&
    d.transport == t && d.fd == (if cl.status.Closed? then SOCKET_ERR else fd) &&
    if cl.status.Waiting? then
      |cl.asked| == |xs| + 1 && SameRequest(cl.asked[|xs|], half, at) &&
      d == Effect(Requests(Made(t, fd), xs), Op.SendTo(half.msg, half.to, half.num))
    else |cl.asked| == |xs| && d == Requests(Made(t, fd), xs)
  }

  lemma FinishCall(cl: Client, cl': Client, t: Transport, fd: nat, d: Conn, xs: seq<Exchange>, half: Exchange,
                   ev: Arrival<Addr>, at: nat -> Addr)
    requires cl.status.Waiting? && ClientIs(cl, t, fd, d, xs, half, at)
    requires !cl'.status.Waiting? && cl'.size == cl.size && cl'.asked == cl.asked
    requires |cl'.got| == |cl.got| + 1 && cl'.got[..|cl.got|] == cl.got
    requires SameOutcome(cl'.got[|cl.got|], t, half.(ev := ev), cl.size)
    requires cl'.status.Closed? <==> t.Unix? && ev.Timeout?
    ensures ClientIs(cl', t, fd, Effect(d, Op.Recv(ev)), xs + [half.(ev := ev)], half, at)
  {
    var x := half.(ev := ev);
    RequestsAppend(Made(t, fd), xs, x);
    RefusingAppend(Made(t, fd), xs, x);
    var xs' := xs + [x];
    forall j | 0 <= j < |xs'|
      ensures SameRequest(cl'.asked[j], xs'[j], at) && SameOutcome(cl'.got[j], t, xs'[j], cl'.size)
    {
      if j < |xs| {
        assert cl'.got[j] == cl'.got[..|cl.got|][j] && xs'[j] == xs[j];
      }
    }
  }

  lemma BeginCall(cl: Client, t: Transport, fd: nat, d: Conn, xs: seq<Exchange>, half: Exchange, ask: Ask, num: int,
                  at: nat -> Addr)
    requires cl.status.Idle? && ClientIs(cl, t, fd, d, xs, half, at)
    ensures var half' := Exchange(ask.msg, at(ask.addr), num, Timeout);
            var d' := d.(log := d.log + [Sent(fd, ask.msg, at(ask.addr), num)]);
            ClientIs(cl.(asked := cl.asked + [ask], status := Waiting), t, fd, d', xs, half', at)
  {
    var cl' := cl.(asked := cl.asked + [ask], status := Waiting);
    forall j | 0 <= j < |xs| ensures SameRequest(cl'.asked[j], xs[j], at) {
      assert cl'.asked[j] == cl.asked[j];
    }
  }

  lemma RefusedCall(cl: Client, t: Transport, fd: nat, d: Conn, xs: seq<Exchange>, half: Exchange, ask: Ask,
                    at: nat -> Addr)
    requires cl.status.Closed? && ClientIs(cl, t, fd, d, xs, half, at)
    ensures var x := Exchange(ask.msg, at(ask.addr), -1, Timeout);
            var d' := d.(log := d.log + [Sent(SOCKET_ERR, x.msg, x.to, -1), Got(SOCKET_ERR, Timeout)]);
            ClientIs(cl.(asked := cl.asked + [ask], got := cl.got + [Threw]), t, fd, d', xs + [x], half, at)
  {
    var x := Exchange(ask.msg, at(ask.addr), -1, Timeout);
    RequestsAppend(Made(t, fd), xs, x);
    RefusingAppend(Made(t, fd), xs, x);
    assert d.log + [Sent(SOCKET_ERR, x.msg, x.to, -1), Got(SOCKET_ERR, Timeout)] ==
           d.log + [Sent(SOCKET_ERR, x.msg, x.to, -1)] + [Got(SOCKET_ERR, Timeout)];
    var cl' := cl.(asked := cl.asked + [ask], got := cl.got + [Threw]);
    var xs' := xs + [x];
    forall j | 0 <= j < |xs'|
      ensures SameRequest(cl'.asked[j], xs'[j], at) && SameOutcome(cl'.got[j], t, xs'[j], cl'.size)
    {
      if j < |xs| {
        assert cl'.got[j] == cl.got[j] && cl'.asked[j] == cl.asked[j] && xs'[j] == xs[j];
      }
    }
  }

  /** The descriptor a client's object holds. */
  function Held(cl: Client, fd: nat): int {
    if cl.status.Closed? then SOCKET_ERR else fd
  }

  /** The client's object has made these system calls. */
  ghost predicate ClientMade(cl: Client, t: Transport, fd: nat, log: seq<KernelCall>, xs: seq<Exchange>, half: Exchange,
                             at: nat -> Addr)
  {
    ClientIs(cl, t, fd, Conn(t, Held(cl, fd), log), xs, half, at)
  }

  lemma SendFollows(e: Env, s: State, a: Action, t: State, at: nat -> Addr, fd: nat, log: seq<KernelCall>,
                    xs: seq<Exchange>, half: Exchange) returns (xs': seq<Exchange>, half': Exchange)
    requires a.Send? && Enabled(e, s, a) && t == AfterSend(s, a.c, a.msg, a.addr, a.accepted)
    requires ClientMade(s.clients[a.c], e.transport, fd, log, xs, half, at)
    ensures a.c < |t.clients|
    ensures ClientMade(t.clients[a.c], e.transport, fd, log + ClientCalls(e, s, a, a.c, at, fd), xs', half', at)
  {
    var cl := s.clients[a.c];
    var d := Conn(e.transport, Held(cl, fd), log);
    var ask := t.clients[a.c].asked[|cl.asked|];
    xs', half' := xs, half;
    if cl.status.Closed? {
      RefusedCall(cl, e.transport, fd, d, xs, half, ask, at);
      xs' := xs + [Exchange(ask.msg, at(ask.addr), -1, Timeout)];
    } else {
      var num := if a.accepted then |a.msg| else -1;
      BeginCall(cl, e.transport, fd, d, xs, half, ask, num, at);
      half' := Exchange(ask.msg, at(ask.addr), num, Timeout);
    }
  }

  lemma DeliverFollows(e: Env, s: State, k: nat, at: nat -> Addr, fd: nat, log: seq<KernelCall>,
                       xs: seq<Exchange>, half: Exchange) returns (xs': seq<Exchange>)
    requires Enabled(e, s, Deliver(k)) && ClientMade(s.clients[s.replies[k].dst], e.transport, fd, log, xs, half, at)
    ensures var c, t := s.replies[k].dst, AfterDeliver(s, k);
            c < |t.clients| &&
            ClientMade(t.clients[c], e.transport, fd, log + ClientCalls(e, s, Deliver(k), c, at, fd), xs', half, at)
  {
    var c, t := s.replies[k].dst, AfterDeliver(s, k);
    var cl := s.clients[c];
    var ev := Datagram(at(s.replies[k].src), s.replies[k].data);
    FinishCall(cl, t.clients[c], e.transport, fd, Conn(e.transport, Held(cl, fd), log), xs, half, ev, at);
    xs' := xs + [half.(ev := ev)];
  }

  lemma ExpireFollows(e: Env, s: State, c: nat, at: nat -> Addr, fd: nat, log: seq<KernelCall>,
                      xs: seq<Exchange>, half: Exchange) returns (xs': seq<Exchange>)
    requires Enabled(e, s, Expire(c)) && ClientMade(s.clients[c], e.transport, fd, log, xs, half, at)
    ensures var t := AfterExpire(e, s, c);
            c < |t.clients| &&
            ClientMade(t.clients[c], e.transport, fd, log + ClientCalls(e, s, Expire(c), c, at, fd), xs', half, at)
  {
    var cl, t := s.clients[c], AfterExpire(e, s, c);
    FinishCall(cl, t.clients[c], e.transport, fd, Conn(e.transport, Held(cl, fd), log), xs, half, Timeout, at);
    xs' := xs + [half.(ev := Timeout)];
    assert log + [Got(fd, Timeout)] + [Sockets.Closed(fd)] == log + [Got(fd, Timeout), Sockets.Closed(fd)];
  }

  lemma OthersStay(e: Env, s: State, a: Action, t: State, c: nat, at: nat -> Addr, fd: nat)
    requires Enabled(e, s, a) && t == Apply(e, s, a) && c < |s.clients|
    requires !(a.Send? && a.c == c) && !(a.Deliver? && s.replies[a.k].dst == c) && !(a.Expire? && a.c == c)
    ensures c < |t.clients| && t.clients[c] == s.clients[c] && ClientCalls(e, s, a, c, at, fd) == []
  {
  }

  lemma StepFollows(e: Env, s: State, a: Action, t: State, c: nat, at: nat -> Addr, fd: nat, log: seq<KernelCall>,
                    xs: seq<Exchange>, half: Exchange) returns (xs': seq<Exchange>, half': Exchange)
    requires Enabled(e, s, a) && t == Apply(e, s, a) && c < |s.clients|
    requires ClientMade(s.clients[c], e.transport, fd, log, xs, half, at)
    ensures c < |t.clients|
    ensures ClientMade(t.clients[c], e.transport, fd, log + ClientCalls(e, s, a, c, at, fd), xs', half', at)
  {
    xs', half' := xs, half;
    if a.Send? && a.c == c {
      xs', half' := SendFollows(e, s, a, t, at, fd, log, xs, half);
    } else if a.Deliver? && s.replies[a.k].dst == c {
      xs' := DeliverFollows(e, s, a.k, at, fd, log, xs, half);
    } else if a.Expire? && a.c == c {
      xs' := ExpireFollows(e, s, c, at, fd, log, xs, half);
    } else {
      OthersStay(e, s, a, t, c, at, fd);
      assert log + [] == log;
    }
  }

  /** In every run of the system, with any losses and timeouts: the system calls made for a client are those of
      its object in calls of request, one for each request asked, with the results the system records; while the
      client waits its last call has sent and not yet received. The object's descriptor is given back exactly
      when the system has the client closed, and its later calls are refused. */
  lemma {:induction false} ClientObject(e: Env, states: seq<State>, actions: seq<Action>, n: nat, c: nat,
                                        at: nat -> Addr, fd: nat) returns (xs: seq<Exchange>, half: Exchange)
    requires IsRun(e, states, actions) && n < |states| && c < |states[0].clients|
    ensures c < |states[n].clients|
    ensures ClientMade(states[n].clients[c], e.transport, fd, ClientLog(e, states, actions, n, c, at, fd), xs, half, at)
    decreases n
  {
    if n == 0 {
      xs, half := [], Exchange([], at(0), 0, Timeout);
      assert ClientIs(states[0].clients[c], e.transport, fd, Made(e.transport, fd), xs, half, at);
    } else {
      xs, half := ClientObject(e, states, actions, n - 1, c, at, fd);
      var log := ClientLog(e, states, actions, n - 1, c, at, fd);
      xs, half := StepFollows(e, states[n - 1], actions[n - 1], states[n], c, at, fd, log, xs, half);
    }
  }

  // ---- servers ----

  function ServerCalls(s: State, a: Action, i: nat, at: nat -> Addr, fd: nat): seq<KernelCall> {
    match a
    case ServeRecv(k) =>
      if k < |s.requests| && s.requests[k].dst == i then [Got(fd, Datagram(at(s.requests[k].src), s.requests[k].data))]
      else []
    case ServeExpire(j) => if j == i then [Got(fd, Timeout)] else []
    case ServeSend(k, accepted) =>
      if k < |s.held| && s.held[k].src == i then
        [Sent(fd, s.held[k].data, at(s.held[k].dst), if accepted then |s.held[k].data| else -1)]
      else []
    case _ => []
  }

  function ServerLog(states: seq<State>, actions: seq<Action>, n: nat, i: nat, at: nat -> Addr, fd: nat)
    : seq<KernelCall>
    requires n <= |actions| && n < |states|
  {
    if n == 0 then [Opened(fd)]
    else ServerLog(states, actions, n - 1, i, at, fd) + ServerCalls(states[n - 1], actions[n - 1], i, at, fd)
  }

  /** One call of once: the callback in force, and what the kernel answered. */
  datatype Service = Service(cb: Callback, ev: Arrival<Addr>, num: int)

  function Serves(c: Conn, size: nat, xs: seq<Service>): Conn {
    if xs == [] then c
    else
      var x := xs[|xs| - 1];
      OnceEffect(Serves(c, size, xs[..|xs| - 1]), x.cb, size, x.ev, x.num)
  }

  lemma ServesAppend(c: Conn, size: nat, xs: seq<Service>, x: Service)
    ensures Serves(c, size, xs + [x]) == OnceEffect(Serves(c, size, xs), x.cb, size, x.ev, x.num)
  {
    assert (xs + [x])[..|xs|] == xs;
  }

  /** What a server has in its hand. */
  function InHand(i: nat): Packet -> Option<Packet> {
    (p: Packet) => if p.src == i then Some(p) else None
  }

  /** `half` has received its request and made this reply to its sender. */
  ghost predicate HoldsReply(p: Packet, srv: Server, half: Service, at: nat -> Addr) {
    half.ev.Datagram? && half.ev.from == at(p.dst) && Handle(half.cb, half.ev.data, srv.size) == Some(p.data)
  }

  /** The callback of a service. */
  function CallbackOf(x: Service): Option<Callback> {
    Some(x.cb)
  }

  /** `d` is the object after the calls `xs`, and after the receive of `half` when a reply is in its hand; `used`
      are the callbacks of all of them, in order. */
  ghost predicate ServerIs(s: State, i: nat, t: Transport, fd: nat, d: Conn, used: seq<Callback>,
                           xs: seq<Service>, half: Service, at: nat -> Addr)
  {
    i < |s.servers| && s.servers[i].cbs != [] &&
    var hand, base := Pick(s.held, InHand(i)), Serves(Made(t, fd), s.servers[i].size, xs);
    d.transport == t && d.fd == base.fd == fd && |hand| <= 1 &&
    if hand == [] then d == base && used == Pick(xs, CallbackOf)
    else
      HoldsReply(hand[0], s.servers[i], half, at) && d == Effect(base, Op.RecvFrom(true, half.ev)) &&
      used == Pick(xs, CallbackOf) + [half.cb]
  }

  lemma EmptyHand(s: State, i: nat)
    requires forall j :: 0 <= j < |s.held| ==> s.held[j].src != i
    ensures Pick(s.held, InHand(i)) == []
  {
    PickNone(s.held, InHand(i));
  }

  lemma OnlyInHand(s: State, k: nat, i: nat)
    requires k < |s.held| && s.held[k].src == i && |Pick(s.held, InHand(i))| <= 1
    ensures Pick(s.held, InHand(i)) == [s.held[k]] && Pick(Remove(s.held, k), InHand(i)) == []
  {
    PickAround(s.held, k, InHand(i));
  }

  lemma DiscardServes(s: State, u: State, i: nat, t: Transport, fd: nat, d: Conn, used: seq<Callback>,
                      xs: seq<Service>, half: Service, x: Service, at: nat -> Addr)
    requires ServerIs(s, i, t, fd, d, used, xs, half, at) && Pick(s.held, InHand(i)) == []
    requires u.servers == s.servers && u.held == s.held
    requires x.ev.Timeout? || Handle(x.cb, x.ev.data, s.servers[i].size).None?
    ensures ServerIs(u, i, t, fd, d.(log := d.log + [Got(fd, x.ev)]), used + [x.cb], xs + [x], half, at)
  {
    PickMore(xs, x, CallbackOf);
    ServesAppend(Made(t, fd), s.servers[i].size, xs, x);
  }

  lemma TakeInHand(s: State, u: State, p: Packet, i: nat, t: Transport, fd: nat, d: Conn, used: seq<Callback>,
                   xs: seq<Service>, half: Service, x: Service, at: nat -> Addr)
    requires ServerIs(s, i, t, fd, d, used, xs, half, at) && Pick(s.held, InHand(i)) == []
    requires u.servers == s.servers && u.held == s.held + [p] && p.src == i
    requires HoldsReply(p, s.servers[i], x, at)
    ensures ServerIs(u, i, t, fd, d.(log := d.log + [Got(fd, x.ev)]), used + [x.cb], xs, x, at)
  {
    PickAppend(s.held, p, InHand(i));
  }

  /** A receive uses the callback in force. */
  lemma ReceiveServes(s: State, k: nat, i: nat, t: Transport, fd: nat, d: Conn, used: seq<Callback>,
                      xs: seq<Service>, half: Service, cb: Callback, at: nat -> Addr)
    returns (xs': seq<Service>, half': Service)
    requires k < |s.requests| && s.requests[k].dst == i && ServerIs(s, i, t, fd, d, used, xs, half, at)
    requires forall j :: 0 <= j < |s.held| ==> s.held[j].src != i
    requires cb == Last(s.servers[i].cbs)
    ensures var p := s.requests[k];
            ServerIs(AfterServeRecv(s, k), i, t, fd, d.(log := d.log + [Got(fd, Datagram(at(p.src), p.data))]),
                     used + [cb], xs', half', at)
  {
    var p, srv, u := s.requests[k], s.servers[i], AfterServeRecv(s, k);
    var x := Service(cb, Datagram(at(p.src), p.data), 0);
    EmptyHand(s, i);
    if Handle(x.cb, p.data, srv.size).None? {
      assert u.servers == s.servers && u.held == s.held;
      DiscardServes(s, u, i, t, fd, d, used, xs, half, x, at);
      xs', half' := xs + [x], half;
    } else {
      var q := Packet(i, p.src, Handle(x.cb, p.data, srv.size).value, p.id);
      assert u.servers == s.servers && u.held == s.held + [q];
      TakeInHand(s, u, q, i, t, fd, d, used, xs, half, x, at);
      xs', half' := xs, x;
    }
  }

  /** A receive that times out is a whole call of once. */
  lemma ExpireServes(s: State, i: nat, t: Transport, fd: nat, d: Conn, used: seq<Callback>, xs: seq<Service>,
                     half: Service, cb: Callback, at: nat -> Addr) returns (xs': seq<Service>)
    requires ServerIs(s, i, t, fd, d, used, xs, half, at)
    requires forall j :: 0 <= j < |s.held| ==> s.held[j].src != i
    ensures ServerIs(s, i, t, fd, d.(log := d.log + [Got(fd, Timeout)]), used + [cb], xs', half, at)
  {
    var x := Service(cb, Timeout, 0);
    EmptyHand(s, i);
    DiscardServes(s, s, i, t, fd, d, used, xs, half, x, at);
    xs' := xs + [x];
  }

  lemma HandEmptied(s: State, u: State, i: nat, t: Transport, fd: nat, d: Conn, used: seq<Callback>,
                    xs: seq<Service>, half: Service, num: int, at: nat -> Addr)
    requires ServerIs(s, i, t, fd, d, used, xs, half, at) && u.servers == s.servers
    requires |Pick(s.held, InHand(i))| == 1 && Pick(u.held, InHand(i)) == []
    ensures var p := Pick(s.held, InHand(i))[0];
            ServerIs(u, i, t, fd, d.(log := d.log + [Sent(fd, p.data, at(p.dst), num)]), used,
                     xs + [half.(num := num)], half, at)
  {
    PickMore(xs, half.(num := num), CallbackOf);
    ServesAppend(Made(t, fd), s.servers[i].size, xs, half.(num := num));
  }

  lemma SendServes(s: State, k: nat, accepted: bool, i: nat, t: Transport, fd: nat, d: Conn, used: seq<Callback>,
                   xs: seq<Service>, half: Service, at: nat -> Addr) returns (xs': seq<Service>)
    requires k < |s.held| && s.held[k].src == i && ServerIs(s, i, t, fd, d, used, xs, half, at)
    ensures var p := s.held[k];
            ServerIs(AfterServeSend(s, k, accepted), i, t, fd,
                     d.(log := d.log + [Sent(fd, p.data, at(p.dst), if accepted then |p.data| else -1)]), used,
                     xs', half, at)
  {
    var num := if accepted then |s.held[k].data| else -1;
    OnlyInHand(s, k, i);
    HandEmptied(s, AfterServeSend(s, k, accepted), i, t, fd, d, used, xs, half, num, at);
    xs' := xs + [half.(num := num)];
  }

  lemma HandStays(e: Env, s: State, a: Action, u: State, i: nat, at: nat -> Addr, fd: nat)
    requires Enabled(e, s, a) && u == Apply(e, s, a) && i < |s.servers|
    requires !(a.ServeRecv? && s.requests[a.k].dst == i) && !(a.ServeSend? && s.held[a.k].src == i)
    requires !(a.ServeExpire? && a.s == i)
    ensures ServerCalls(s, a, i, at, fd) == [] && Pick(u.held, InHand(i)) == Pick(s.held, InHand(i))
    ensures i < |u.servers| && u.servers[i].size == s.servers[i].size && s.servers[i].cbs <= u.servers[i].cbs
  {
    match a {
      case ServeRecv(k) =>
        if |u.held| > |s.held| {
          PickAppend(s.held, u.held[|s.held|], InHand(i));
        }
      case ServeSend(k, accepted) => PickRemoveOther(s.held, k, InHand(i));
      case _ =>
    }
  }

  lemma SameServer(s: State, u: State, i: nat, t: Transport, fd: nat, d: Conn, used: seq<Callback>,
                   xs: seq<Service>, half: Service, at: nat -> Addr)
    requires ServerIs(s, i, t, fd, d, used, xs, half, at) && Pick(u.held, InHand(i)) == Pick(s.held, InHand(i))
    requires i < |u.servers| && u.servers[i].size == s.servers[i].size && s.servers[i].cbs <= u.servers[i].cbs
    ensures ServerIs(u, i, t, fd, d, used, xs, half, at)
  {
  }

  lemma StepServes(e: Env, s: State, a: Action, u: State, i: nat, at: nat -> Addr, fd: nat, log: seq<KernelCall>,
                   used: seq<Callback>, cb: Callback, xs: seq<Service>, half: Service)
    returns (xs': seq<Service>, half': Service)
    requires Enabled(e, s, a) && u == Apply(e, s, a)
    requires ServerIs(s, i, e.transport, fd, Conn(e.transport, fd, log), used, xs, half, at)
    requires cb == Last(s.servers[i].cbs)
    ensures ServerIs(u, i, e.transport, fd, Conn(e.transport, fd, log + ServerCalls(s, a, i, at, fd)),
                     used + (if ReceivesAt(s, a, i) then [cb] else []), xs', half', at)
  {
    var d := Conn(e.transport, fd, log);
    xs', half' := xs, half;
    assert used + [] == used;
    if a.ServeRecv? && s.requests[a.k].dst == i {
      xs', half' := ReceiveServes(s, a.k, i, e.transport, fd, d, used, xs, half, cb, at);
    } else if a.ServeSend? && s.held[a.k].src == i {
      xs' := SendServes(s, a.k, a.accepted, i, e.transport, fd, d, used, xs, half, at);
    } else if a.ServeExpire? && a.s == i {
      xs' := ExpireServes(s, i, e.transport, fd, d, used, xs, half, cb, at);
    } else {
      HandStays(e, s, a, u, i, at, fd);
      SameServer(s, u, i, e.transport, fd, d, used, xs, half, at);
      assert log + [] == log;
    }
  }

  lemma FreshServer(s: State, i: nat, t: Transport, fd: nat, half: Service, at: nat -> Addr)
    requires i < |s.servers| && s.servers[i].cbs != [] && s.held == []
    ensures ServerIs(s, i, t, fd, Made(t, fd), [], [], half, at)
  {
  }

  /** The server's object has made the system calls of the run, with the callbacks in force. */
  ghost predicate ServerMade(e: Env, states: seq<State>, actions: seq<Action>, n: nat, i: nat, at: nat -> Addr,
                             fd: nat, xs: seq<Service>, half: Service)
    requires IsRun(e, states, actions) && n < |states| && i < |states[0].servers|
  {
    ServerIs(states[n], i, e.transport, fd, Conn(e.transport, fd, ServerLog(states, actions, n, i, at, fd)),
             CallbacksUsed(states, actions, n, i), xs, half, at)
  }

  lemma MoreServes(e: Env, states: seq<State>, actions: seq<Action>, m: nat, i: nat, at: nat -> Addr, fd: nat,
                   xs: seq<Service>, half: Service) returns (xs': seq<Service>, half': Service)
    requires IsRun(e, states, actions) && m < |actions| && i < |states[0].servers|
    requires ServerMade(e, states, actions, m, i, at, fd, xs, half)
    ensures ServerMade(e, states, actions, m + 1, i, at, fd, xs', half')
  {
    var cb := InForce(Start(states[0], i), actions, m, i);
    var log, used := ServerLog(states, actions, m, i, at, fd), CallbacksUsed(states, actions, m, i);
    RunLast(e, states, actions, m, i);
    xs', half' := StepServes(e, states[m], actions[m], states[m + 1], i, at, fd, log, used, cb, xs, half);
  }

  /** ... and for a server those of its object in calls of once, each with the callback in force at its receive:
      that of the last registration before it, or the first one. While a reply is in its hand the last call has
      received the request and not yet sent that reply. */
  lemma {:induction false} ServerObject(e: Env, states: seq<State>, actions: seq<Action>, n: nat, i: nat,
                                        at: nat -> Addr, fd: nat) returns (xs: seq<Service>, half: Service)
    requires IsRun(e, states, actions) && n < |states| && i < |states[0].servers|
    ensures ServerMade(e, states, actions, n, i, at, fd, xs, half)
    decreases n
  {
    if n == 0 {
      xs, half := [], Service(Start(states[0], i), Timeout, 0);
      FreshServer(states[0], i, e.transport, fd, half, at);
    } else {
      xs, half := ServerObject(e, states, actions, n - 1, i, at, fd);
      xs, half := MoreServes(e, states, actions, n - 1, i, at, fd, xs, half);
    }
  }
}
