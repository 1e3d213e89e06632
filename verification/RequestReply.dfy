/** The Request and Reply objects. The step system in module Calls takes `request` apart at its receive,
    and `once` between its receive and its send; module CallObjects puts them together again. */
module RequestReply {
  import opened Wire
  import opened SockAddr
  import opened Sockets

  /** The descriptor's history over one `once`: one receive, and one send exactly when the message is
      handled, to the sender the receive recorded. */
  function OnceEffect(c: Conn, cb: Message -> Message, size: nat, ev: Arrival<Addr>, num: int): Conn {
    var c' := Effect(c, Op.RecvFrom(true, ev));
    if ev.Timeout? then c'
    else
      match Handle(cb, ev.data, size)
      case None => c'
      case Some(r) => Effect(c', Op.SendTo(r, ev.from, num))
  }

  class Reply {
    const sock: Socket
    const msgSize: nat
    var callback: Message -> Message

    constructor (transport: Transport, size: nat, cb: Message -> Message)
      ensures sock.Valid() && fresh(sock) && sock.transport == transport
      ensures msgSize == size && callback == cb
    {
      sock := new Socket(transport);
      msgSize := size;
      callback := cb;
    }

    /** Only the last callback registered is kept. */
    method RegisterCb(f: Message -> Message)
      modifies this`callback
      ensures callback == f
    {
      callback := f;
    }

    method Once() returns (ghost ev: Arrival<Addr>, ghost num: int)
      requires sock.Valid()
      modifies sock
      ensures sock.Valid()
      ensures sock.State() == OnceEffect(old(sock.State()), callback, msgSize, ev, num)
      ensures sock.socketFd == old(sock.socketFd)
      ensures sock.log == old(sock.log) + [Got(sock.socketFd, ev)] +
                          (if ev.Timeout? || ev.data == [] || msgSize == 0 then []
                           else [Sent(sock.socketFd, callback(Fit(ev.data, msgSize)), ev.from, num)])
    {
      var m, from;
      num := 0;
      m, from, ev := sock.RecvFrom(msgSize, true);
      if |m| == 0 || |m| != msgSize {
        return;
      }
      var r := callback(m);
      num := sock.SendTo(r, from.value);
    }
  }

  /** One call of request: the message, the address, and what the kernel answered to its send and receive. */
  datatype Exchange = Exchange(msg: Message, to: Addr, num: int, ev: Arrival<Addr>)

  function RequestEffect(c: Conn, x: Exchange): Conn {
    Effect(Effect(c, Op.SendTo(x.msg, x.to, x.num)), Op.Recv(x.ev))
  }

  /** The kernel refuses the calls of a closed socket. */
  predicate Refused(x: Exchange) {
    x.num == -1 && x.ev.Timeout?
  }

  class Request {
    const sock: Socket
    const msgSize: nat

    constructor (transport: Transport, size: nat)
      ensures sock.Valid() && fresh(sock) && sock.transport == transport && msgSize == size
    {
      sock := new Socket(transport);
      msgSize := size;
    }

    /** Sends, then returns whatever datagram comes first; a failed send is not noticed. On a Unix socket a
        timeout closes it for good, and from then on every request throws. */
    method Request(msg: Message, addr: Addr) returns (r: Result<Message, ()>, ghost ev: Arrival<Addr>, ghost num: int)
      requires sock.Valid()
      modifies sock
      ensures sock.Valid()
      ensures r == RecvOutcome(sock.transport, ev, msgSize)
      ensures sock.State() == RequestEffect(old(sock.State()), Exchange(msg, addr, num, ev))
      ensures r.Err? ==> sock.socketFd == SOCKET_ERR
      ensures var fd := old(sock.socketFd);
              sock.log == old(sock.log) + [Sent(fd, msg, addr, num)] + [Got(fd, ev)] +
                          (if r.Err? then Closing(fd) else [])
      ensures old(sock.socketFd) == SOCKET_ERR ==> Refused(Exchange(msg, addr, num, ev))
      ensures old(sock.socketFd) == SOCKET_ERR && sock.transport.Unix? ==> r.Err?
    {
      num := sock.SendTo(msg, addr);
      r, ev := sock.Recv(msgSize);
    }
  }
}
