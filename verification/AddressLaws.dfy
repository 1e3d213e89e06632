/** What an address text means, and what printing and parsing an address keep. */
module AddressLaws {
  import opened Wire
  import opened Text
  import opened Regex
  import opened Patterns
  import opened Scanner
  import opened SockAddr
  import opened Hosts

  lemma SchemeInFront(scheme: string, text: string)
    requires scheme == "udp" || scheme == "tcp" || scheme == "unix"
    ensures var s := scheme + "://" + text;
            SchemeLength(s, 0) == |scheme| && At(s, |scheme|, "://") && s[..|scheme|] == scheme
  {
    var s := scheme + "://" + text;
    assert s[..|scheme|] == scheme && s[|scheme|..|scheme| + 3] == "://";
    SchemesExclude(s, 0);
  }

  lemma RunInside(front: string, text: string, n: nat)
    requires n <= |text| && (n < |text| ==> !IsPath(text[n]))
    requires forall i :: 0 <= i < n ==> IsPath(text[i])
    ensures var s := front + text; var b := |front|;
            Span(IsPath, s, b) == b + n && s[b..b + n] == text[..n]
  {
    var s, b := front + text, |front|;
    forall j | b <= j < b + n ensures IsPath(s[j]) {
      assert s[j] == text[j - b];
    }
    assert b + n < |s| ==> s[b + n] == text[n];
    SpanIs(IsPath, s, b, b + n);
  }

  /** A scheme at the front and a text of accepted characters: the whole text is taken. */
  lemma WholePath(scheme: string, text: string, n: nat)
    requires scheme == "udp" || scheme == "tcp" || scheme == "unix"
    requires 0 < n <= |text| && (n < |text| ==> !IsPath(text[n]))
    requires forall i :: 0 <= i < n ==> IsPath(text[i])
    ensures Search(PROTO, scheme + "://" + text) == Some(Found(scheme, text[..n]))
  {
    var s := scheme + "://" + text;
    var k := |scheme|;
    var b := k + 3;
    SchemeInFront(scheme, text);
    RunInside(scheme + "://", text, n);
    assert ProtoAt(s, 0, k, b + n);
    ProtoSearch(s, 0, k, b + n);
  }

  lemma WholeIpPort(host: string, port: string)
    requires host != "" && port != ""
    requires forall i :: 0 <= i < |host| ==> IsHost(host[i])
    requires forall i :: 0 <= i < |port| ==> IsPort(port[i])
    ensures Search(IPPORT, host + ":" + port) == Some(Found(host, port))
  {
    var s := host + ":" + port;
    var h := |host|;
    SpanIs(IsHost, s, 0, h);
    SpanIs(IsPort, s, h + 1, |s|);
    assert IpPortAt(s, 0, h, |s|);
    IpPortSearch(s, 0, h, |s|);
    assert s[..h] == host && s[h + 1..|s|] == port;
  }

  // ---- what a text means ----

  ghost predicate HasNoProto(s: string) {
    forall i: nat, k, e :: i <= |s| ==> !ProtoAt(s, i, k, e)
  }

  ghost predicate HasNoIpPort(t: string) {
    forall j: nat, h, f :: j <= |t| ==> !IpPortAt(t, j, h, f)
  }

  ghost predicate FirstProto(s: string, i: nat, k: nat, e: nat) {
    ProtoAt(s, i, k, e) && forall j, kk, ee :: 0 <= j < i ==> !ProtoAt(s, j, kk, ee)
  }

  ghost predicate FirstIpPort(t: string, j: nat, h: nat, f: nat) {
    IpPortAt(t, j, h, f) && forall i, hh, ff :: 0 <= i < j ==> !IpPortAt(t, i, hh, ff)
  }

  /** `k` is the length of the numeral in front. */
  ghost predicate Leading(t: string, k: nat) {
    k <= |t| && AllDigits(t[..k]) && (k < |t| ==> !IsDigit(t[k]))
  }

  /** A number above the int range throws; otherwise the value is congruent to it modulo two to the 16. */
  ghost predicate ReadsNumber(n: nat, r: Result<Word16, Failure>) {
    if n > 0x7FFF_FFFF then r == Err(OutOfRange) else r.Ok? && exists q: nat :: n == q * 0x1_0000 + r.value
  }

  /** What a port text reads as: a star is 0; otherwise the numeral in front decides, whatever follows it. */
  ghost predicate ReadsPort(t: string, r: Result<Word16, Failure>) {
    if t == "*" then r == Ok(0)
    else if t == "" || !IsDigit(t[0]) then r == Err(InvalidArgument)
    else exists k: nat :: Leading(t, k) && ReadsNumber(Value(t[..k]), r)
  }

  lemma LeadingIs(t: string, k: nat)
    requires Leading(t, k)
    ensures k == Span(IsDigit, t, 0)
  {
    forall j | 0 <= j < k ensures IsDigit(t[j]) {
      assert t[..k][j] == t[j];
    }
    SpanIs(IsDigit, t, 0, k);
  }

  lemma LowBits(n: nat, q: nat, r: Word16)
    requires n == q * 0x1_0000 + r
    ensures r == n % 0x1_0000
  {
  }

  lemma PortMeaning(t: string, r: Result<Word16, Failure>)
    ensures PortResult(t) == r <==> ReadsPort(t, r)
  {
    if t != "*" && t != "" && IsDigit(t[0]) {
      var k := Span(IsDigit, t, 0);
      assert Leading(t, k);
      var n := Value(t[..k]);
      assert n == n / 0x1_0000 * 0x1_0000 + n % 0x1_0000;
      if ReadsPort(t, r) {
        var k': nat :| Leading(t, k') && ReadsNumber(Value(t[..k']), r);
        LeadingIs(t, k');
        if n <= 0x7FFF_FFFF {
          var q: nat :| n == q * 0x1_0000 + r.value;
          LowBits(n, q, r.value);
        }
      }
    }
  }

  function AddressAt(libc: Libc, host: string, port: Result<Word16, Failure>): Result<Addr, Failure> {
    match port
    case Err(f) => Err(f)
    case Ok(n) => Ok(Inet(HostResult(libc, host), Htons(n)))
  }

  /** The address of a host and a port as they are in memory, or the port's exception. */
  ghost predicate AddressIs(libc: Libc, host: string, port: Result<Word16, Failure>, r: Result<Addr, Failure>) {
    match port
    case Err(f) => r == Err(f)
    case Ok(n) => r.Ok? && r.value.Inet? && HostIs(libc, host, r.value.sAddr) && Swapped(n, r.value.sinPort)
  }

  lemma AddressMeaning(libc: Libc, host: string, port: Result<Word16, Failure>, r: Result<Addr, Failure>)
    ensures AddressAt(libc, host, port) == r <==> AddressIs(libc, host, port, r)
  {
    if port.Ok? {
      HostMeaning(libc, host, HostResult(libc, host));
      HtonsMeaning(port.value, Htons(port.value));
      if r.Ok? && r.value.Inet? {
        HostMeaning(libc, host, r.value.sAddr);
        HtonsMeaning(port.value, r.value.sinPort);
      }
    }
  }

  ghost predicate ReadsInet(libc: Libc, host: string, port: string, r: Result<Addr, Failure>) {
    exists p :: ReadsPort(port, p) && AddressIs(libc, host, p, r)
  }

  ghost predicate InetFrom(libc: Libc, t: string, r: Result<Addr, Failure>, j: nat, h: nat, f: nat) {
    FirstIpPort(t, j, h, f) && ReadsInet(libc, t[j..h], t[h + 1..f], r)
  }

  ghost predicate MeansInet(libc: Libc, t: string, r: Result<Addr, Failure>) {
    if HasNoIpPort(t) then r == Ok(Error)
    else exists j: nat, h: nat, f: nat :: InetFrom(libc, t, r, j, h, f)
  }

  /** sun_path holds the path, and terminators up to its 108 characters. */
  ghost predicate Padded(path: string, sunPath: string) {
    |path| <= |sunPath| == 108 && sunPath[..|path|] == path &&
    forall i :: |path| <= i < 108 ==> sunPath[i] == '\0'
  }

  ghost predicate Stores(path: string, r: Result<Addr, Failure>) {
    if |path| > 108 then r == Err(PathOverrun) else r.Ok? && r.value.Unix? && Padded(path, r.value.sunPath)
  }

  lemma UnixMeaning(path: string, r: Result<Addr, Failure>)
    ensures UnixResult(path) == r <==> Stores(path, r)
  {
    if |path| <= 108 {
      var buffer := NulPadded(path);
      assert Padded(path, buffer);
      if Stores(path, r) {
        assert r.value.sunPath == buffer;
      }
    }
  }

  ghost predicate MeansPath(libc: Libc, scheme: string, path: string, r: Result<Addr, Failure>) {
    if scheme == "unix" then Stores(path, r) else MeansInet(libc, path, r)
  }

  /** What a text means, without regular expressions: the leftmost scheme with a path decides; then, but for
      `unix`, the leftmost host that ends in a colon and a port. */
  ghost predicate Means(libc: Libc, s: string, r: Result<Addr, Failure>) {
    if HasNoProto(s) then r == Ok(Error)
    else exists i: nat, k: nat, e: nat ::
           FirstProto(s, i, k, e) && MeansPath(libc, s[i..i + k], s[i + k + 3..e], r)
  }

  lemma FindIpPort(t: string) returns (j: nat, h: nat, f: nat)
    requires Search(IPPORT, t) != None
    ensures FirstIpPort(t, j, h, f)
  {
    IpPortSearchFails(t);
    j, h, f :| j <= |t| && IpPortAt(t, j, h, f);
    j, h, f := LeftmostIpPort(t, j, h, f);
  }

  lemma FindProto(s: string) returns (i: nat, k: nat, e: nat)
    requires Search(PROTO, s) != None
    ensures FirstProto(s, i, k, e)
  {
    ProtoSearchFails(s);
    i, k, e :| i <= |s| && ProtoAt(s, i, k, e);
    i, k, e := LeftmostProto(s, i, k, e);
  }

  lemma InetMeaning(libc: Libc, t: string, r: Result<Addr, Failure>)
    ensures InetResult(libc, t) == r <==> MeansInet(libc, t, r)
  {
    IpPortSearchFails(t);
    if Search(IPPORT, t).Some? {
      var j, h, f := FindIpPort(t);
      InetMeaningAt(libc, t, r, j, h, f);
    }
  }

  lemma OneIpPort(t: string, j: nat, h: nat, f: nat, j': nat, h': nat, f': nat)
    requires FirstIpPort(t, j, h, f) && FirstIpPort(t, j', h', f')
    ensures j == j' && h == h' && f == f'
  {
    assert !(j < j') && !(j' < j);
  }

  lemma InetResultAt(libc: Libc, t: string, j: nat, h: nat, f: nat)
    requires FirstIpPort(t, j, h, f)
    ensures InetResult(libc, t) == AddressAt(libc, t[j..h], PortResult(t[h + 1..f]))
  {
    IpPortSearch(t, j, h, f);
  }

  lemma HostAndPort(libc: Libc, host: string, port: string, r: Result<Addr, Failure>)
    ensures AddressAt(libc, host, PortResult(port)) == r <==> ReadsInet(libc, host, port, r)
  {
    PortMeaning(port, PortResult(port));
    AddressMeaning(libc, host, PortResult(port), r);
    if p :| ReadsPort(port, p) && AddressIs(libc, host, p, r) {
      PortMeaning(port, p);
    }
  }

  lemma InetFromFirst(libc: Libc, t: string, r: Result<Addr, Failure>, j: nat, h: nat, f: nat)
    requires FirstIpPort(t, j, h, f)
    ensures InetFrom(libc, t, r, j, h, f) <==> ReadsInet(libc, t[j..h], t[h + 1..f], r)
    ensures forall j', h', f' :: InetFrom(libc, t, r, j', h', f') ==> j == j' && h == h' && f == f'
    ensures !HasNoIpPort(t)
  {
    forall j', h', f' | InetFrom(libc, t, r, j', h', f') ensures j == j' && h == h' && f == f' {
      OneIpPort(t, j, h, f, j', h', f');
    }
  }

  lemma MeansInetAt(libc: Libc, t: string, r: Result<Addr, Failure>, j: nat, h: nat, f: nat)
    requires j <= h < f <= |t| && !HasNoIpPort(t)
    requires InetFrom(libc, t, r, j, h, f) <==> ReadsInet(libc, t[j..h], t[h + 1..f], r)
    requires forall j', h', f' :: InetFrom(libc, t, r, j', h', f') ==> j == j' && h == h' && f == f'
    ensures MeansInet(libc, t, r) <==> ReadsInet(libc, t[j..h], t[h + 1..f], r)
  {
  }

  lemma InetMeaningAt(libc: Libc, t: string, r: Result<Addr, Failure>, j: nat, h: nat, f: nat)
    requires FirstIpPort(t, j, h, f)
    ensures InetResult(libc, t) == r <==> MeansInet(libc, t, r)
  {
    InetResultAt(libc, t, j, h, f);
    HostAndPort(libc, t[j..h], t[h + 1..f], r);
    InetFromFirst(libc, t, r, j, h, f);
    MeansInetAt(libc, t, r, j, h, f);
  }

  /** The parser computes exactly the meaning of every text, exceptions included. */
  lemma ParserMeaning(libc: Libc, s: string, r: Result<Addr, Failure>)
    ensures Filtered(libc, s) == r <==> Means(libc, s, r)
  {
    ProtoSearchFails(s);
    if Search(PROTO, s).Some? {
      var i, k, e := FindProto(s);
      ParserMeaningAt(libc, s, r, i, k, e);
    }
  }

  lemma OneProto(s: string, i: nat, k: nat, e: nat, i': nat, k': nat, e': nat)
    requires FirstProto(s, i, k, e) && FirstProto(s, i', k', e')
    ensures i == i' && k == k' && e == e'
  {
    assert !(i < i') && !(i' < i);
  }

  lemma FilteredAt(libc: Libc, s: string, i: nat, k: nat, e: nat)
    requires FirstProto(s, i, k, e)
    ensures var scheme, path := s[i..i + k], s[i + k + 3..e];
            (scheme == "udp" || scheme == "tcp" || scheme == "unix") &&
            Filtered(libc, s) == if scheme == "unix" then UnixResult(path) else InetResult(libc, path)
  {
    ProtoSearch(s, i, k, e);
    CapturesOf(s, i, k, e);
  }

  lemma ParserMeaningAt(libc: Libc, s: string, r: Result<Addr, Failure>, i: nat, k: nat, e: nat)
    requires FirstProto(s, i, k, e)
    ensures Filtered(libc, s) == r <==> Means(libc, s, r)
  {
    FilteredAt(libc, s, i, k, e);
    InetMeaning(libc, s[i + k + 3..e], r);
    UnixMeaning(s[i + k + 3..e], r);
    MeansAt(libc, s, r, i, k, e);
  }

  lemma MeansAt(libc: Libc, s: string, r: Result<Addr, Failure>, i: nat, k: nat, e: nat)
    requires FirstProto(s, i, k, e)
    ensures Means(libc, s, r) <==> MeansPath(libc, s[i..i + k], s[i + k + 3..e], r)
  {
    assert !HasNoProto(s);
    if Means(libc, s, r) {
      var i': nat, k': nat, e': nat :|
        FirstProto(s, i', k', e') && MeansPath(libc, s[i'..i' + k'], s[i' + k' + 3..e'], r);
      OneProto(s, i, k, e, i', k', e');
    }
  }

  /** The places in a text that make it mean an internet address. */
  datatype Places = Places(i: nat, k: nat, e: nat, j: nat, h: nat, f: nat, n: Word16)

  ghost predicate InetInPath(libc: Libc, path: string, a: Addr, at: Places) {
    FirstIpPort(path, at.j, at.h, at.f) && ReadsPort(path[at.h + 1..at.f], Ok(at.n)) &&
    AddressIs(libc, path[at.j..at.h], Ok(at.n), Ok(a))
  }

  ghost predicate InetAt(libc: Libc, s: string, a: Addr, at: Places) {
    FirstProto(s, at.i, at.k, at.e) && (s[at.i..at.i + at.k] == "udp" || s[at.i..at.i + at.k] == "tcp") &&
    InetInPath(libc, s[at.i + at.k + 3..at.e], a, at)
  }

  /** A text parses to an internet address if and only if its leftmost scheme with a path is udp or tcp, the
      path's leftmost host and port exist, the port is accepted, and the address is the one they give. */
  lemma ParsesToInet(libc: Libc, s: string, a: Addr)
    ensures Filtered(libc, s) == Ok(a) && a.Inet? <==> exists at :: InetAt(libc, s, a, at)
  {
    if Filtered(libc, s) == Ok(a) && a.Inet? {
      var at := PlacesOf(libc, s, a);
    }
    if at :| InetAt(libc, s, a, at) {
      InetAtParses(libc, s, a, at);
    }
  }

  lemma InetInPathParses(libc: Libc, path: string, a: Addr, at: Places)
    requires InetInPath(libc, path, a, at)
    ensures InetResult(libc, path) == Ok(a) && a.Inet?
  {
    InetResultAt(libc, path, at.j, at.h, at.f);
    PortIs(path[at.h + 1..at.f], at.n);
    AddressMeaning(libc, path[at.j..at.h], Ok(at.n), Ok(a));
  }

  lemma PortIs(port: string, n: Word16)
    requires ReadsPort(port, Ok(n))
    ensures PortResult(port) == Ok(n)
  {
    PortMeaning(port, Ok(n));
  }

  lemma InetAtParses(libc: Libc, s: string, a: Addr, at: Places)
    requires InetAt(libc, s, a, at)
    ensures Filtered(libc, s) == Ok(a) && a.Inet?
  {
    FilteredAt(libc, s, at.i, at.k, at.e);
    InetInPathParses(libc, s[at.i + at.k + 3..at.e], a, at);
  }

  lemma PlacesInPath(libc: Libc, path: string, a: Addr, i: nat, k: nat, e: nat) returns (at: Places)
    requires InetResult(libc, path) == Ok(a) && a.Inet?
    ensures InetInPath(libc, path, a, at) && at.i == i && at.k == k && at.e == e
  {
    var j, h, f := FindIpPort(path);
    InetResultAt(libc, path, j, h, f);
    var n := PortResult(path[h + 1..f]).value;
    PortMeaning(path[h + 1..f], Ok(n));
    AddressMeaning(libc, path[j..h], Ok(n), Ok(a));
    at := Places(i, k, e, j, h, f, n);
  }

  lemma InetScheme(libc: Libc, s: string, a: Addr, i: nat, k: nat, e: nat)
    requires FirstProto(s, i, k, e) && Filtered(libc, s) == Ok(a) && a.Inet?
    ensures s[i..i + k] == "udp" || s[i..i + k] == "tcp"
    ensures InetResult(libc, s[i + k + 3..e]) == Ok(a)
  {
    FilteredAt(libc, s, i, k, e);
  }

  lemma PlacesOf(libc: Libc, s: string, a: Addr) returns (at: Places)
    requires Filtered(libc, s) == Ok(a) && a.Inet?
    ensures InetAt(libc, s, a, at)
  {
    var i, k, e := FindProto(s);
    InetScheme(libc, s, a, i, k, e);
    at := PlacesInPath(libc, s[i + k + 3..e], a, i, k, e);
  }

  // ---- ports ----

  /** An address of any host and any port text. */
  lemma TextAddress(libc: Libc, scheme: string, host: string, port: string)
    requires scheme == "udp" || scheme == "tcp"
    requires host != "" && forall i :: 0 <= i < |host| ==> IsHost(host[i])
    requires port != "" && forall i :: 0 <= i < |port| ==> IsPort(port[i])
    ensures Filtered(libc, scheme + "://" + (host + ":" + port)) == AddressAt(libc, host, PortResult(port))
    ensures AddressIs(libc, host, PortResult(port), Filtered(libc, scheme + "://" + (host + ":" + port)))
  {
    var text := host + ":" + port;
    WholePath(scheme, text, |text|);
    assert text[..|text|] == text;
    WholeIpPort(host, port);
    AddressMeaning(libc, host, PortResult(port), AddressAt(libc, host, PortResult(port)));
  }

  /** How every port text is read: only a star alone is 0, a text without a digit in front throws, a numeral
      in front above the int range throws, and otherwise its low 16 bits are taken, whatever follows it. */
  lemma PortTexts(port: string, k: nat)
    requires port != "" && Leading(port, k)
    ensures port == "*" ==> PortResult(port) == Ok(0)
    ensures port != "*" && k == 0 ==> PortResult(port) == Err(InvalidArgument)
    ensures k > 0 && Value(port[..k]) > 0x7FFF_FFFF ==> PortResult(port) == Err(OutOfRange)
    ensures k > 0 && Value(port[..k]) <= 0x7FFF_FFFF ==> PortResult(port) == Ok(Value(port[..k]) % 0x1_0000)
  {
    LeadingIs(port, k);
  }

  /** Three texts that are no documented ports and are read as one all the same. */
  lemma UndocumentedPorts()
    ensures PortResult("8*") == Ok(8) && Documented("8*") == None
    ensures PortResult("80,443") == Ok(80) && Documented("80,443") == None
    ensures PortResult("65536") == Ok(0) && Documented("65536") == None
  {
    assert "8" + "*" == "8*" && "80" + ",443" == "80,443" && "65536" + "" == "65536";
    EndsAfter("8", "*");
    EndsAfter("80", ",443");
    EndsAfter("65536", "");
    ShortNumerals();
    TooLargeNumeral();
  }

  lemma ValueAppend(s: string, c: char)
    requires AllDigits(s) && IsDigit(c)
    ensures AllDigits(s + [c]) && Value(s + [c]) == 10 * Value(s) + (c - '0') as nat
  {
    assert (s + [c])[..|s|] == s;
  }

  lemma ShortNumerals()
    ensures Value("8") == 8 && Value("80") == 80
  {
    ValueAppend("", '8');
    ValueAppend("8", '0');
    assert "" + ['8'] == "8" && "8" + ['0'] == "80";
  }

  lemma TooLargeNumeral()
    ensures Value("65536") == 65536
  {
    ValueAppend("", '6');
    ValueAppend("6", '5');
    ValueAppend("65", '5');
    ValueAppend("655", '3');
    ValueAppend("6553", '6');
    assert "" + ['6'] == "6" && "6" + ['5'] == "65" && "65" + ['5'] == "655";
    assert "655" + ['3'] == "6553" && "6553" + ['6'] == "65536";
  }

  lemma EndsAfter(numeral: string, rest: string)
    requires numeral != "" && AllDigits(numeral) && (rest != "" ==> !IsDigit(rest[0]))
    ensures var port := numeral + rest;
            Leading(port, |numeral|) && port[..|numeral|] == numeral &&
            PortResult(port) ==
            (if Value(numeral) > 0x7FFF_FFFF then Err(OutOfRange) else Ok(Value(numeral) % 0x1_0000)) &&
            Documented(port) == if rest == "" && 1 <= Value(numeral) < 0x1_0000 then Some(Value(numeral)) else None
  {
    var port := numeral + rest;
    assert port[..|numeral|] == numeral;
    PortTexts(port, |numeral|);
    DocumentedLeading(port, |numeral|);
  }

  /** What the documentation lets a port be: a star, or a numeral from 1 to 65535. */
  function Documented(port: string): Option<Word16> {
    if port == "*" then Some(0)
    else if port != "" && AllDigits(port) && 1 <= Value(port) < 0x1_0000 then Some(Value(port))
    else None
  }

  lemma DocumentedRead(port: string, k: nat)
    requires port != "" && Leading(port, k)
    ensures Documented(port).Some? ==> PortResult(port) == Ok(Documented(port).value)
    ensures (PortResult(port).Ok? <==> Documented(port).Some?) <==> !ReadDifferently(port, k)
  {
    PortTexts(port, k);
    DocumentedLeading(port, k);
  }

  /** A numeral in the int range stands in front, and either something follows it or it is not from 1 to 65535. */
  predicate ReadDifferently(port: string, k: nat)
    requires k <= |port| && AllDigits(port[..k])
  {
    k > 0 && Value(port[..k]) <= 0x7FFF_FFFF && (k < |port| || Value(port[..k]) == 0 || Value(port[..k]) >= 0x1_0000)
  }

  /** Every documented port is read as written, and the others are refused exactly when they are not read
      differently. */
  lemma DocumentedPorts(libc: Libc, scheme: string, host: string, port: string, k: nat)
    requires scheme == "udp" || scheme == "tcp"
    requires host != "" && forall i :: 0 <= i < |host| ==> IsHost(host[i])
    requires port != "" && forall i :: 0 <= i < |port| ==> IsPort(port[i])
    requires Leading(port, k)
    ensures var r := Filtered(libc, scheme + "://" + (host + ":" + port));
            (Documented(port).Some? ==> AddressIs(libc, host, Ok(Documented(port).value), r)) &&
            ((r.Ok? <==> Documented(port).Some?) <==> !ReadDifferently(port, k))
  {
    TextAddress(libc, scheme, host, port);
    DocumentedRead(port, k);
    AddressMeaning(libc, host, PortResult(port), AddressAt(libc, host, PortResult(port)));
  }

  lemma DocumentedLeading(port: string, k: nat)
    requires port != "" && Leading(port, k)
    ensures Documented(port) ==
            if port == "*" then Some(0)
            else if k == |port| && 1 <= Value(port[..k]) < 0x1_0000 then Some(Value(port[..k])) else None
  {
    assert port[..|port|] == port;
    if k < |port| {
      assert !AllDigits(port);
    }
  }

  lemma NumeralRead(port: string)
    requires port != "" && AllDigits(port)
    ensures PortResult(port) == Ok(Value(port)) <==> Value(port) < 0x1_0000
  {
    assert port[..|port|] == port;
    PortTexts(port, |port|);
    FitsSixteen(Value(port));
  }

  lemma FitsSixteen(n: nat)
    ensures n % 0x1_0000 == n <==> n < 0x1_0000
  {
  }

  /** The port that was written is the port that is read exactly when it is a numeral up to 65535. */
  lemma PortFaithful(libc: Libc, scheme: string, host: string, port: string)
    requires scheme == "udp" || scheme == "tcp"
    requires host != "" && forall i :: 0 <= i < |host| ==> IsHost(host[i])
    requires port != "" && AllDigits(port)
    ensures var r := Filtered(libc, scheme + "://" + (host + ":" + port));
            (r.Ok? && r.value.Inet? && Swapped(Value(port), r.value.sinPort)) <==> Value(port) < 0x1_0000
  {
    TextAddress(libc, scheme, host, port);
    NumeralRead(port);
    var r := Filtered(libc, scheme + "://" + (host + ":" + port));
    if r.Ok? && r.value.Inet? && Swapped(Value(port), r.value.sinPort) {
      HtonsMeaning(Value(port), r.value.sinPort);
    }
  }

  // ---- hosts ----

  /** An accepted port makes an address, whatever the host. */
  ghost predicate Gives(r: Result<Addr, Failure>, ip: nat, port: Result<Word16, Failure>) {
    (r.Ok? <==> port.Ok?) &&
    (r.Ok? ==> r.value.Inet? && r.value.sAddr == ip && Swapped(port.value, r.value.sinPort))
  }

  lemma HostGives(libc: Libc, scheme: string, host: string, ip: Word32, port: string)
    requires scheme == "udp" || scheme == "tcp"
    requires host != "" && forall i :: 0 <= i < |host| ==> IsHost(host[i])
    requires port != "" && forall i :: 0 <= i < |port| ==> IsPort(port[i])
    requires HostResult(libc, host) == ip
    ensures Gives(Filtered(libc, scheme + "://" + (host + ":" + port)), ip, PortResult(port))
  {
    TextAddress(libc, scheme, host, port);
  }

  /** A star is any address and `bc` the broadcast address, with every port text. */
  lemma SpecialHosts(libc: Libc, scheme: string, port: string)
    requires scheme == "udp" || scheme == "tcp"
    requires port != "" && forall i :: 0 <= i < |port| ==> IsPort(port[i])
    ensures Gives(Filtered(libc, scheme + "://" + ("*:" + port)), 0, PortResult(port))
    ensures Gives(Filtered(libc, scheme + "://" + ("bc:" + port)), 0xFFFF_FFFF, PortResult(port))
  {
    AnyHost(libc, scheme, "*", port);
    BroadcastHost(libc, scheme, "bc", port);
    ColonText(port);
  }

  lemma ColonText(port: string)
    ensures "*" + ":" + port == "*:" + port && "bc" + ":" + port == "bc:" + port
  {
  }

  lemma AnyHost(libc: Libc, scheme: string, host: string, port: string)
    requires (scheme == "udp" || scheme == "tcp") && host == "*"
    requires port != "" && forall i :: 0 <= i < |port| ==> IsPort(port[i])
    ensures Gives(Filtered(libc, scheme + "://" + (host + ":" + port)), 0, PortResult(port))
  {
    HostGives(libc, scheme, host, 0, port);
  }

  lemma BroadcastHost(libc: Libc, scheme: string, host: string, port: string)
    requires (scheme == "udp" || scheme == "tcp") && host == "bc"
    requires port != "" && forall i :: 0 <= i < |port| ==> IsPort(port[i])
    ensures Gives(Filtered(libc, scheme + "://" + (host + ":" + port)), 0xFFFF_FFFF, PortResult(port))
  {
    HostGives(libc, scheme, host, 0xFFFF_FFFF, port);
  }

  /** A strict dotted decimal is its four octets in memory order, with every port text. */
  lemma QuadAddress(libc: Libc, scheme: string, a: nat, b: nat, c: nat, d: nat, port: string)
    requires scheme == "udp" || scheme == "tcp"
    requires a < 256 && b < 256 && c < 256 && d < 256
    requires port != "" && forall i :: 0 <= i < |port| ==> IsPort(port[i])
    ensures var host := Decimal(a) + "." + Decimal(b) + "." + Decimal(c) + "." + Decimal(d);
            Gives(Filtered(libc, scheme + "://" + (host + ":" + port)),
                  a + 256 * b + 65536 * c + 0x100_0000 * d, PortResult(port))
  {
    var ip, host := Stored(a, b, c, d), DottedQuad(a, b, c, d);
    DottedIs(a, b, c, d);
    DottedChars(ip, 3);
    HostOfDotted(libc, ip);
    HostGives(libc, scheme, host, ip, port);
  }

  /** The same address and port are printed octet by octet. */
  lemma PrintedAddress(a: nat, b: nat, c: nat, d: nat, hi: nat, lo: nat)
    requires a < 256 && b < 256 && c < 256 && d < 256 && hi < 256 && lo < 256
    ensures InetText(Inet(a + 256 * b + 65536 * c + 0x100_0000 * d, 256 * hi + lo)) ==
            Decimal(a) + "." + Decimal(b) + "." + Decimal(c) + "." + Decimal(d) + ":" + Decimal(256 * lo + hi)
  {
    var ip: Word32, p: Word16 := Stored(a, b, c, d), 256 * hi + lo;
    DottedIs(a, b, c, d);
    HtonsSwaps(hi, lo);
    assert InetText(Inet(ip, p)) == Dotted(ip, 3) + ":" + Decimal(Htons(p));
  }

  /** The addresses that the tests bind and send to. */
  lemma TestAddresses(libc: Libc)
    ensures Filtered(libc, "udp://*:9999") == Ok(Inet(0, 3879))
    ensures Filtered(libc, "udp://127.0.0.1:9999") == Ok(Inet(0x0100_007F, 3879))
    ensures Stores("./unix.rr.uds", Filtered(libc, "unix://./unix.rr.uds"))
  {
    TestBind(libc);
    TestLoopback(libc);
    TestUnix(libc);
  }

  lemma OnTestPort(r: Result<Addr, Failure>, ip: Word32, port: string)
    requires PortResult(port) == Ok(9999) && Gives(r, ip, PortResult(port))
    ensures r == Ok(Inet(ip, 3879))
  {
    HtonsMeaning(9999, r.value.sinPort);
  }

  lemma BindText(port: string)
    requires port == "9999"
    ensures "udp" + "://" + ("*:" + port) == "udp://*:9999"
  {
  }

  lemma TestBind(libc: Libc)
    ensures Filtered(libc, "udp://*:9999") == Ok(Inet(0, 3879))
  {
    var scheme, port := "udp", "9999";
    TestPort(port);
    SpecialHosts(libc, scheme, port);
    OnTestPort(Filtered(libc, scheme + "://" + ("*:" + port)), 0, port);
    BindText(port);
  }

  lemma TestLoopback(libc: Libc)
    ensures Filtered(libc, "udp://127.0.0.1:9999") == Ok(Inet(0x0100_007F, 3879))
  {
    var scheme, port := "udp", "9999";
    TestPort(port);
    QuadAddress(libc, scheme, 127, 0, 0, 1, port);
    LoopbackText(port);
    OnTestPort(Filtered(libc, "udp://127.0.0.1:9999"), 0x0100_007F, port);
  }

  lemma TestUnix(libc: Libc)
    ensures Stores("./unix.rr.uds", Filtered(libc, "unix://./unix.rr.uds"))
  {
    var p := "./unix.rr.uds";
    UnixWhole(libc, p);
    UnixTestText(p);
  }

  lemma UnixWhole(libc: Libc, p: string)
    requires p != "" && forall i :: 0 <= i < |p| ==> IsPath(p[i])
    ensures Stores(p, Filtered(libc, "unix://" + p))
  {
    UnixPrefix(libc, p, |p|);
    assert p[..|p|] == p;
  }

  lemma UnixTestText(p: string)
    requires p == "./unix.rr.uds"
    ensures "unix://" + p == "unix://./unix.rr.uds"
  {
  }

  lemma FourDigits(a: char, b: char, c: char, d: char)
    requires IsDigit(a) && IsDigit(b) && IsDigit(c) && IsDigit(d)
    ensures AllDigits([a, b, c, d])
    ensures Value([a, b, c, d]) ==
            1000 * (a - '0') as nat + 100 * (b - '0') as nat + 10 * (c - '0') as nat + (d - '0') as nat
  {
    ValueAppend([], a);
    ValueAppend([a], b);
    ValueAppend([a, b], c);
    ValueAppend([a, b, c], d);
    assert [] + [a] == [a] && [a] + [b] == [a, b] && [a, b] + [c] == [a, b, c];
    assert [a, b, c] + [d] == [a, b, c, d];
  }

  lemma TestPort(port: string)
    requires port == "9999"
    ensures AllDigits(port) && PortResult(port) == Ok(9999)
  {
    FourDigits('9', '9', '9', '9');
    assert port == ['9', '9', '9', '9'];
    NumeralRead(port);
  }

  lemma LoopbackText(port: string)
    requires port == "9999"
    ensures "udp" + "://" + (Decimal(127) + "." + Decimal(0) + "." + Decimal(0) + "." + Decimal(1) + ":" + port) ==
            "udp://127.0.0.1:9999"
  {
    SmallDecimals();
    var host := "127" + "." + "0" + "." + "0" + "." + "1";
    assert host == "127.0.0.1";
    UdpText(host + ":" + port);
    assert host + ":" + port == "127.0.0.1:9999";
    assert "udp://" + "127.0.0.1:9999" == "udp://127.0.0.1:9999";
  }

  lemma SmallDecimals()
    ensures Decimal(0) == "0" && Decimal(1) == "1" && Decimal(127) == "127"
  {
    ValueAppend("", '0');
    ValueAppend("", '1');
    ValueAppend("1", '2');
    ValueAppend("12", '7');
    assert "" + ['0'] == "0" && "" + ['1'] == "1" && "1" + ['2'] == "12" && "12" + ['7'] == "127";
    DecimalOfValue("0");
    DecimalOfValue("1");
    DecimalOfValue("127");
  }

  // ---- round trips ----

  lemma PrintedPort(p: Word16)
    ensures var port := Decimal(Htons(p));
            port != "" && AllDigits(port) && Value(port) == Htons(p) && PortResult(port) == Ok(Htons(p))
  {
    var port := Decimal(Htons(p));
    DecimalValue(Htons(p));
    assert port[..|port|] == port;
    PortTexts(port, |port|);
  }

  /** Printing an internet address and parsing it again gives the address back. */
  lemma InetRoundTrip(libc: Libc, a: Addr)
    requires a.Inet?
    ensures Filtered(libc, "udp://" + InetText(a)) == Ok(a)
  {
    var host, port := Dotted(a.sAddr, 3), Decimal(Htons(a.sinPort));
    DottedChars(a.sAddr, 3);
    PrintedPort(a.sinPort);
    TextAddress(libc, "udp", host, port);
    HostOfDotted(libc, a.sAddr);
    HtonsInvolution(a.sinPort);
    UdpText(InetText(a));
  }

  lemma UdpText(text: string)
    ensures "udp" + "://" + text == "udp://" + text
  {
  }

  /** Every text that means an internet address, wherever in it and however its host and port are written,
      has a normal form: the printed address means the same, and two such texts mean the same address
      exactly when they print alike. */
  lemma NormalForm(libc: Libc, s: string, a: Addr, at: Places, t: string, b: Addr, bt: Places)
    requires InetAt(libc, s, a, at) && InetAt(libc, t, b, bt)
    ensures Filtered(libc, "udp://" + InetText(a)) == Filtered(libc, s) == Ok(a)
    ensures Filtered(libc, s) == Filtered(libc, t) <==> InetText(a) == InetText(b)
  {
    InetAtParses(libc, s, a, at);
    InetAtParses(libc, t, b, bt);
    InetRoundTrip(libc, a);
    InetRoundTrip(libc, b);
  }

  /** A Unix address text gives back its longest accepted prefix, if there is one; schemes inside the path do
      not matter. */
  lemma UnixPrefix(libc: Libc, p: string, n: nat)
    requires 0 < n <= |p| && (n < |p| ==> !IsPath(p[n]))
    requires forall i :: 0 <= i < n ==> IsPath(p[i])
    ensures Stores(p[..n], Filtered(libc, "unix://" + p))
  {
    WholePath("unix", p, n);
    assert "unix" + "://" + p == "unix://" + p;
    UnixMeaning(p[..n], UnixResult(p[..n]));
  }

  /** sun_path keeps a path that has no terminator in it, and its own terminator below 108 characters. */
  lemma SunPath(path: string)
    requires |path| <= 108 && forall i :: 0 <= i < |path| ==> IsPath(path[i])
    ensures var a := Addr.Unix(NulPadded(path));
            UnixText(a) == path && ('\0' in a.sunPath <==> |path| < 108)
  {
    var n := |path|;
    var buffer := NulPadded(path);
    forall j | 0 <= j < n ensures NotNul(buffer[j]) {
      assert buffer[j] == path[j];
    }
    SpanIs(NotNul, buffer, 0, n);
    assert n < 108 ==> buffer[n] == '\0';
    assert n == 108 ==> buffer == path;
  }

  /** The Unix address is printed back as it was written. */
  ghost predicate PrintsBack(libc: Libc, p: string) {
    var r := Filtered(libc, "unix://" + p);
    r.Ok? && r.value.Unix? && '\0' in r.value.sunPath && UnixText(r.value) == p
  }

  /** A path is printed back exactly when it is not empty, all its characters are accepted, and it is shorter
      than 108 characters. */
  lemma UnixRoundTrip(libc: Libc, p: string)
    ensures PrintsBack(libc, p) <==> 0 < |p| < 108 && forall i :: 0 <= i < |p| ==> IsPath(p[i])
  {
    if 0 < |p| && forall i :: 0 <= i < |p| ==> IsPath(p[i]) {
      UnixPrefix(libc, p, |p|);
      assert p[..|p|] == p;
      UnixMeaning(p, Filtered(libc, "unix://" + p));
      if |p| <= 108 {
        SunPath(p);
      }
    } else if PrintsBack(libc, p) {
      ParsedPath(libc, "unix://" + p);
    }
  }

  /** What a Unix address prints is never empty and holds accepted characters only. */
  lemma ParsedPath(libc: Libc, s: string)
    requires Filtered(libc, s).Ok? && Filtered(libc, s).value.Unix?
    ensures var p := UnixText(Filtered(libc, s).value);
            p != "" && forall i :: 0 <= i < |p| ==> IsPath(p[i])
  {
    ProtoCaptures(s);
    SunPath(Search(PROTO, s).value.second);
  }
}
