/** What a datagram receive leaves in the caller's buffer, for both transports. */
module Wire {
  newtype byte = x: int | 0 <= x < 256

  type Message = seq<byte>

  datatype Option<+T> = None | Some(value: T)

  /** A C++ call either returns a value or leaves by an exception. */
  datatype Result<+T, +E> = Ok(value: T) | Err(error: E)

  datatype Transport = Udp | Unix

  /** What may happen on the network: the transport, receive timeouts, loss, and whether datagrams
      between the same two sockets keep their order. Nothing is duplicated. */
  datatype Env = Env(transport: Transport, timeouts: bool, lossy: bool, ordered: bool)

  function Pow256(n: nat): (p: nat)
    ensures p >= 1
  {
    if n == 0 then 1 else 256 * Pow256(n - 1)
  }

  /** What the kernel answers to a receive: -1 (timeout or error), or one datagram. */
  datatype Arrival<+A> = Timeout | Datagram(from: A, data: Message)

  function Zeros(n: nat): (z: Message)
    ensures |z| == n && forall i :: 0 <= i < n ==> z[i] == 0
  {
    seq(n, _ => 0)
  }

  /** The buffer after `data` was copied into `size` zero bytes. It is never shrunk to the bytes
      received, only emptied when the kernel reported none. */
  function Fit(data: Message, size: nat): Message {
    if data == [] || size == 0 then []
    else if size <= |data| then data[..size]
    else data + Zeros(size - |data|)
  }

  function Received<A>(ev: Arrival<A>, size: nat): Message {
    if ev.Timeout? then [] else Fit(ev.data, size)
  }

  /** The value of recv: a timeout is an empty message on UDP and an exception on Unix sockets. */
  function RecvOutcome<A>(t: Transport, ev: Arrival<A>, size: nat): Result<Message, ()> {
    if t.Unix? && ev.Timeout? then Err(()) else Ok(Received(ev, size))
  }

  /** What a reply server makes of one request datagram: None when it is discarded. */
  function Handle(cb: Message -> Message, data: Message, size: nat): Option<Message> {
    var m := Fit(data, size);
    if |m| == 0 || |m| != size then None else Some(cb(m))
  }

  /** A receive yields nothing or exactly `size` bytes, and never invents data. */
  lemma FitShape(data: Message, size: nat)
    ensures Fit(data, size) == [] || |Fit(data, size)| == size
    ensures Fit(data, size) == [] <==> data == [] || size == 0
    ensures forall i :: 0 <= i < |Fit(data, size)| ==>
                          Fit(data, size)[i] == if i < |data| then data[i] else 0
    ensures |data| == size ==> Fit(data, size) == data
    ensures Fit(Fit(data, size), size) == Fit(data, size)
  {
    if |data| == size {
      assert data[..size] == data;
    }
    var f := Fit(data, size);
    if f != [] {
      assert f[..size] == f;
    }
  }
}
