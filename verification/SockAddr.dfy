/** Address texts: the parser `filter`, and the printers it undoes. */
module SockAddr {
  import opened Wire
  import opened Text
  import opened Queues
  import opened Regex
  import opened Patterns
  import opened Scanner

  type Word32 = x: nat | x < 0x1_0000_0000
  type Word16 = x: nat | x < 0x1_0000

  const INADDR_ANY: Word32 := 0
  const INADDR_BROADCAST: Word32 := 0xFFFF_FFFF
  const INT_MAX := 0x7FFF_FFFF
  const SUN_PATH := 108

  /** The union SockAddr, by its family: AF_INET, AF_UNIX or the library's own AF_ERROR. The internet
      address and port are the stored ones, in network byte order on a little-endian host. */
  datatype Addr = Inet(sAddr: Word32, sinPort: Word16) | Unix(sunPath: string) | Error

  /** std::stoi throws in two ways; a path longer than sun_path is written past its end, which is
      undefined behaviour and has no result here. */
  datatype Failure = InvalidArgument | OutOfRange | PathOverrun

  /** inet_addr on texts that are not strict dotted decimals: unspecified, but a function. */
  type Libc = string -> Word32

  function Htons(p: Word16): Word16 { p % 256 * 256 + p / 256 }

  lemma HtonsInvolution(p: Word16)
    ensures Htons(Htons(p)) == p
  {
    assert p == p / 256 * 256 + p % 256;
    assert Htons(p) / 256 == p % 256 && Htons(p) % 256 == p / 256;
  }

  // ---- numbers in texts ----

  /** std::stoi of a text without blanks or sign: the leading digits decide. */
  function Stoi(s: string): Result<nat, Failure> {
    var digits := s[..Span(IsDigit, s, 0)];
    if digits == "" then Err(InvalidArgument)
    else if Value(digits) > INT_MAX then Err(OutOfRange)
    else Ok(Value(digits))
  }

  predicate NotDot(c: char) { c != '.' }

  /** The octets of a text with exactly `n` dots, as stored: the first one is the least significant. */
  function Quad(s: string, n: nat): Option<nat> {
    var k := Span(NotDot, s, 0);
    match Octet(s[..k])
    case None => None
    case Some(a) =>
      if n == 0 then if k == |s| then Some(a) else None
      else if k == |s| then None
      else
        match Quad(s[k + 1..], n - 1)
        case None => None
        case Some(rest) => Some(a + 256 * rest)
  }

  function InetAddr(libc: Libc, s: string): Word32 {
    match Quad(s, 3)
    case Some(ip) => if ip < 0x1_0000_0000 then ip else libc(s)
    case None => libc(s)
  }

  /** inet_ntop: the octets in memory order. */
  function Dotted(ip: nat, n: nat): string {
    if n == 0 then Decimal(ip % 256) else Decimal(ip % 256) + "." + Dotted(ip / 256, n - 1)
  }

  // ---- the parser ----

  function NulPadded(path: string): string
    requires |path| <= SUN_PATH
  {
    path + seq(SUN_PATH - |path|, _ => '\0')
  }

  function UnixResult(path: string): Result<Addr, Failure> {
    if |path| > SUN_PATH then Err(PathOverrun) else Ok(Addr.Unix(NulPadded(path)))
  }

  function HostResult(libc: Libc, host: string): Word32 {
    if host == "*" then INADDR_ANY
    else if host == "bc" then INADDR_BROADCAST
    else InetAddr(libc, host)
  }

  /** The port is a 16-bit integer: a larger number is cut to its low 16 bits. */
  function PortResult(port: string): Result<Word16, Failure> {
    if port == "*" then Ok(0)
    else
      match Stoi(port)
      case Err(e) => Err(e)
      case Ok(n) => Ok(n % 0x1_0000)
  }

  function InetResult(libc: Libc, ss: string): Result<Addr, Failure> {
    match Search(IPPORT, ss)
    case None => Ok(Error)
    case Some(mm) =>
      match PortResult(mm.second)
      case Err(e) => Err(e)
      case Ok(port) => Ok(Inet(HostResult(libc, mm.first), Htons(port)))
  }

  /** What `filter` is meant to return (the source returns a reference to a local), in terms of the
      reference matcher. */
  function Filtered(libc: Libc, address: string): Result<Addr, Failure> {
    match Search(PROTO, address)
    case None => Ok(Error)
    case Some(m) =>
      if m.first == "unix" then UnixResult(m.second)
      else if m.first == "tcp" || m.first == "udp" then InetResult(libc, m.second)
      else Ok(Error)
  }

  method Filter(libc: Libc, address: string) returns (r: Result<Addr, Failure>)
    ensures r == Filtered(libc, address)
  {
    var m := ScanProto(address);
    if m.None? {
      return Ok(Error);
    }
    if m.value.first == "unix" {
      var path := m.value.second;
      if |path| > SUN_PATH {
        return Err(PathOverrun);
      }
      var sunPath := new char[SUN_PATH](_ => '\0');
      CopyInto(sunPath, path);
      assert sunPath[..] == NulPadded(path);
      return Ok(Addr.Unix(sunPath[..]));
    } else if m.value.first == "tcp" || m.value.first == "udp" {
      var mm := ScanIpPort(m.value.second);
      if mm.None? {
        return Ok(Error);
      }
      var ip: Word32;
      if mm.value.first == "*" {
        ip := INADDR_ANY;
      } else if mm.value.first == "bc" {
        ip := INADDR_BROADCAST;
      } else {
        ip := InetAddr(libc, mm.value.first);
      }
      var port: Word16 := 0;
      if mm.value.second != "*" {
        match Stoi(mm.value.second) {
          case Err(e) => return Err(e);
          case Ok(n) => port := n % 0x1_0000;
        }
      }
      return Ok(Inet(ip, Htons(port)));
    }
    r := Ok(Error);
  }

  // ---- the printers ----

  function InetText(a: Addr): string {
    if a.Inet? then Dotted(a.sAddr, 3) + ":" + Decimal(Htons(a.sinPort)) else ""
  }

  predicate NotNul(c: char) { c != '\0' }

  /** A C string ends at its first NUL: with none, the printer reads past sun_path. */
  function UnixText(a: Addr): string {
    if a.Unix? then a.sunPath[..Span(NotNul, a.sunPath, 0)] else ""
  }
}
