/** Request and Reply objects over a datagram network, as a step system: any number of clients and
    servers, any interleaving. A reply server's `once` is two steps, receive and send. No datagram
    carries a number; `id` is bookkeeping of the model that no step reads. */
module Calls {
  import opened Wire
  import opened Queues

  type Callback = Message -> Message

  /** The n-th call of a client. */
  datatype Id = Id(client: nat, call: nat)

  datatype Packet = Packet(src: nat, dst: nat, data: Message, id: Id)

  /** `cbs` holds every callback registered so far; the last one is in force. */
  datatype Server = Server(size: nat, cbs: seq<Callback>)

  /** A request: message, address, and the number of the callback in force there when it was sent. */
  datatype Ask = Ask(msg: Message, addr: nat, version: nat)

  /** How a call ended, and which request's reply it consumed, if any. */
  datatype Outcome = Returned(msg: Message, source: Option<Id>) | Threw

  datatype Status = Idle | Waiting | Closed

  datatype Client = Client(size: nat, status: Status, asked: seq<Ask>, got: seq<Outcome>)

  /** Requests under way or queued at a server, replies held between the two halves of `once`, replies
      under way or queued at a client; and the log of every request's fate. */
  datatype State = State(
    clients: seq<Client>, servers: seq<Server>,
    requests: seq<Packet>, held: seq<Packet>, replies: seq<Packet>,
    sent: seq<Id>, lost: seq<Id>, discarded: seq<Id>, delivered: seq<Id>)

  datatype Action =
    | Send(c: nat, msg: Message, addr: nat, accepted: bool)   // request: sendto
    | Deliver(k: nat)                                         // request: recv gets a datagram
    | Expire(c: nat)                                          // request: recv times out
    | ServeRecv(k: nat)                                       // once: recvfrom, size check, callback
    | ServeExpire(s: nat)                                     // once: recvfrom times out
    | ServeSend(k: nat, accepted: bool)                       // once: sendto
    | Register(s: nat, f: Callback)                           // register_cb
    | LoseRequest(k: nat)
    | LoseReply(k: nat)

  /** The two sockets a datagram travels between. */
  function Ends(p: Packet): (nat, nat) {
    (p.src, p.dst)
  }

  predicate Enabled(e: Env, s: State, a: Action) {
    match a
    case Send(c, msg, addr, accepted) =>
      c < |s.clients| && !s.clients[c].status.Waiting? &&
      (accepted ==> s.clients[c].status.Idle? && addr < |s.servers|) &&
      (!e.lossy && s.clients[c].status.Idle? && addr < |s.servers| ==> accepted)
    case Deliver(k) =>
      k < |s.replies| && s.replies[k].dst < |s.clients| && s.clients[s.replies[k].dst].status.Waiting? &&
      (e.ordered ==> First(s.replies, k, Ends))
    case Expire(c) => e.timeouts && c < |s.clients| && s.clients[c].status.Waiting?
    case ServeRecv(k) =>
      k < |s.requests| && s.requests[k].dst < |s.servers| && s.servers[s.requests[k].dst].cbs != [] &&
      (forall i :: 0 <= i < |s.held| ==> s.held[i].src != s.requests[k].dst) &&
      (e.ordered ==> First(s.requests, k, Ends))
    case ServeExpire(i) =>
      e.timeouts && i < |s.servers| && forall j :: 0 <= j < |s.held| ==> s.held[j].src != i
    case ServeSend(k, accepted) => k < |s.held| && (!e.lossy ==> accepted)
    case Register(i, f) => i < |s.servers|
    case LoseRequest(k) => e.lossy && k < |s.requests|
    case LoseReply(k) => e.lossy && k < |s.replies|
  }

  /** A call on a closed socket: the send is refused and the receive throws at once. */
  function AfterSend(s: State, c: nat, msg: Message, addr: nat, accepted: bool): State
    requires c < |s.clients|
  {
    var cl := s.clients[c];
    var id := Id(c, |cl.asked|);
    var version := if addr < |s.servers| && s.servers[addr].cbs != [] then |s.servers[addr].cbs| - 1 else 0;
    var asked := cl.asked + [Ask(msg, addr, version)];
    var cl' := if cl.status.Closed? then cl.(asked := asked, got := cl.got + [Threw])
               else cl.(asked := asked, status := Waiting);
    s.(clients := s.clients[c := cl'],
       sent := s.sent + [id],
       requests := if accepted then s.requests + [Packet(c, addr, msg, id)] else s.requests,
       lost := if accepted then s.lost else s.lost + [id])
  }

  /** The receive does not look at the sender: whatever datagram comes first ends the call. */
  function AfterDeliver(s: State, k: nat): State
    requires k < |s.replies| && s.replies[k].dst < |s.clients|
  {
    var p := s.replies[k];
    var cl := s.clients[p.dst];
    var m := Received(Datagram(p.src, p.data), cl.size);
    s.(clients := s.clients[p.dst := cl.(status := Idle, got := cl.got + [Returned(m, Some(p.id))])],
       replies := Remove(s.replies, k),
       delivered := s.delivered + [p.id])
  }

  function AfterExpire(e: Env, s: State, c: nat): State
    requires c < |s.clients|
  {
    var cl := s.clients[c];
    match RecvOutcome<nat>(e.transport, Timeout, cl.size)
    case Ok(m) => s.(clients := s.clients[c := cl.(status := Idle, got := cl.got + [Returned(m, None)])])
    case Err(_) => s.(clients := s.clients[c := cl.(status := Closed, got := cl.got + [Threw])])
  }

  function AfterServeRecv(s: State, k: nat): State
    requires k < |s.requests| && s.requests[k].dst < |s.servers| && s.servers[s.requests[k].dst].cbs != []
  {
    var p := s.requests[k];
    var srv := s.servers[p.dst];
    match Handle(srv.cbs[|srv.cbs| - 1], p.data, srv.size)
    case None => s.(requests := Remove(s.requests, k), discarded := s.discarded + [p.id])
    case Some(r) => s.(requests := Remove(s.requests, k), held := s.held + [Packet(p.dst, p.src, r, p.id)])
  }

  function AfterServeSend(s: State, k: nat, accepted: bool): State
    requires k < |s.held|
  {
    var p := s.held[k];
    if accepted then s.(held := Remove(s.held, k), replies := s.replies + [p])
    else s.(held := Remove(s.held, k), lost := s.lost + [p.id])
  }

  function AfterRegister(s: State, i: nat, f: Callback): State
    requires i < |s.servers|
  {
    s.(servers := s.servers[i := s.servers[i].(cbs := s.servers[i].cbs + [f])])
  }

  function AfterLoseRequest(s: State, k: nat): State
    requires k < |s.requests|
  {
    s.(requests := Remove(s.requests, k), lost := s.lost + [s.requests[k].id])
  }

  function AfterLoseReply(s: State, k: nat): State
    requires k < |s.replies|
  {
    s.(replies := Remove(s.replies, k), lost := s.lost + [s.replies[k].id])
  }

  function Apply(e: Env, s: State, a: Action): State
    requires Enabled(e, s, a)
  {
    match a
    case Send(c, msg, addr, accepted) => AfterSend(s, c, msg, addr, accepted)
    case Deliver(k) => AfterDeliver(s, k)
    case Expire(c) => AfterExpire(e, s, c)
    case ServeRecv(k) => AfterServeRecv(s, k)
    case ServeExpire(_) => s
    case ServeSend(k, accepted) => AfterServeSend(s, k, accepted)
    case Register(i, f) => AfterRegister(s, i, f)
    case LoseRequest(k) => AfterLoseRequest(s, k)
    case LoseReply(k) => AfterLoseReply(s, k)
  }

  /** Every server has a callback; nothing was sent yet. */
  ghost predicate Init(s: State) {
    (forall c :: 0 <= c < |s.clients| ==>
      s.clients[c].status.Idle? && s.clients[c].asked == [] && s.clients[c].got == []) &&
    (forall i :: 0 <= i < |s.servers| ==> s.servers[i].cbs != []) &&
    s.requests == s.held == s.replies == [] && s.sent == s.lost == s.discarded == s.delivered == []
  }

  /** A run: the states passed, and the action between each two. */
  ghost predicate IsRun(e: Env, states: seq<State>, actions: seq<Action>) {
    |states| == |actions| + 1 && Init(states[0]) &&
    forall i {:trigger actions[i]} :: 0 <= i < |actions| ==>
      Enabled(e, states[i], actions[i]) && states[i + 1] == Apply(e, states[i], actions[i])
  }
}
