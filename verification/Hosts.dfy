/** What hosts and ports are in memory: hosts as four octets, ports as two bytes. */
module Hosts {
  import opened Wire
  import opened Text
  import opened SockAddr

  // ---- ports ----

  ghost predicate Bytes(n: nat, hi: nat, lo: nat) {
    hi < 256 && lo < 256 && n == 256 * hi + lo
  }

  /** The same two bytes in the other order. */
  ghost predicate Swapped(n: nat, m: nat) {
    exists hi, lo :: Bytes(n, hi, lo) && Bytes(m, lo, hi)
  }

  lemma HtonsSwaps(hi: nat, lo: nat)
    requires hi < 256 && lo < 256
    ensures Htons(256 * hi + lo) == 256 * lo + hi
  {
  }

  lemma BytesOf(n: Word16)
    ensures Bytes(n, n / 256, n % 256)
  {
  }

  lemma HtonsMeaning(n: Word16, m: Word16)
    ensures Htons(n) == m <==> Swapped(n, m)
  {
    BytesOf(n);
    HtonsSwaps(n / 256, n % 256);
    assert Bytes(Htons(n), n % 256, n / 256);
    if hi, lo :| Bytes(n, hi, lo) && Bytes(m, lo, hi) {
      HtonsSwaps(hi, lo);
    }
  }

  // ---- hosts ----

  lemma QuadStep(low: nat, rest: string, high: nat, n: nat)
    requires low < 256 && n > 0 && Quad(rest, n - 1) == Some(high)
    ensures Quad(Decimal(low) + "." + rest, n) == Some(low + 256 * high)
  {
    var d := Decimal(low);
    OctetMeaning(d, low);
    DecimalValue(low);
    var s := d + "." + rest;
    SpanIs(NotDot, s, 0, |d|);
    assert s[..|d|] == d && s[|d| + 1..] == rest;
  }

  lemma QuadLast(low: nat)
    requires low < 256
    ensures Quad(Decimal(low), 0) == Some(low)
  {
    var d := Decimal(low);
    OctetMeaning(d, low);
    DecimalValue(low);
    SpanIs(NotDot, d, 0, |d|);
    assert d[..|d|] == d;
  }

  lemma DottedStep(ip: nat, low: nat, high: nat, n: nat)
    requires n > 0 && low == ip % 256 && high == ip / 256
    requires Quad(Dotted(high, n - 1), n - 1) == Some(high)
    ensures Quad(Dotted(ip, n), n) == Some(low + 256 * high)
  {
    var rest := Dotted(high, n - 1);
    assert Dotted(ip, n) == Decimal(low) + "." + rest;
    QuadStep(low, rest, high, n);
  }

  lemma DottedUp(ip: nat, n: nat)
    requires n > 0 && Quad(Dotted(ip / 256, n - 1), n - 1) == Some(ip / 256)
    ensures Quad(Dotted(ip, n), n) == Some(ip)
  {
    var low, high := ip % 256, ip / 256;
    DottedStep(ip, low, high, n);
    assert low + 256 * high == ip;
  }

  lemma DottedLast(ip: nat)
    requires ip < 256
    ensures Quad(Dotted(ip, 0), 0) == Some(ip)
  {
    assert Dotted(ip, 0) == Decimal(ip);
    QuadLast(ip);
  }

  lemma {:induction false} QuadOfDotted(ip: nat, n: nat)
    requires ip < Pow256(n + 1)
    ensures Quad(Dotted(ip, n), n) == Some(ip)
  {
    if n == 0 {
      assert Pow256(1) == 256 * Pow256(0);
      DottedLast(ip);
    } else {
      QuadOfDotted(ip / 256, n - 1);
      DottedUp(ip, n);
    }
  }

  lemma {:induction false} DottedChars(ip: nat, n: nat)
    ensures Dotted(ip, n) != ""
    ensures forall i :: 0 <= i < |Dotted(ip, n)| ==> IsDigit(Dotted(ip, n)[i]) || Dotted(ip, n)[i] == '.'
  {
    DecimalValue(ip % 256);
    if n > 0 {
      DottedChars(ip / 256, n - 1);
    }
  }

  /** The host is neither of the two special names. */
  lemma HostOfDotted(libc: Libc, ip: Word32)
    ensures HostResult(libc, Dotted(ip, 3)) == ip
  {
    var s := Dotted(ip, 3);
    DottedChars(ip, 3);
    assert s[0] != '*' && s[0] != 'b';
    assert Pow256(4) == 256 * Pow256(3) == 65536 * Pow256(2) == 0x100_0000 * Pow256(1) == 0x1_0000_0000;
    QuadOfDotted(ip, 3);
  }

  /** A strict dotted decimal. */
  function DottedQuad(a: nat, b: nat, c: nat, d: nat): string {
    Decimal(a) + "." + Decimal(b) + "." + Decimal(c) + "." + Decimal(d)
  }

  ghost predicate IsQuad(s: string, a: nat, b: nat, c: nat, d: nat) {
    a < 256 && b < 256 && c < 256 && d < 256 && s == DottedQuad(a, b, c, d)
  }

  /** The first octet comes first in memory. */
  function Stored(a: nat, b: nat, c: nat, d: nat): nat {
    a + 256 * b + 65536 * c + 0x100_0000 * d
  }

  lemma DottedUnfold(ip: nat, n: nat, low: nat, high: nat)
    requires n > 0 && low < 256 && ip == low + 256 * high
    ensures Dotted(ip, n) == Decimal(low) + "." + Dotted(high, n - 1)
  {
    assert ip % 256 == low && ip / 256 == high;
  }

  lemma Regroup(a: string, b: string, c: string, d: string, u: string, v: string)
    requires u == c + "." + d && v == b + "." + u
    ensures a + "." + v == a + "." + b + "." + c + "." + d
  {
  }

  lemma DottedZero(d: nat, n: nat)
    requires d < 256 && n == 0
    ensures Dotted(d, n) == Decimal(d)
  {
    assert d % 256 == d;
  }

  lemma DottedLow(ip: nat, c: nat, d: nat)
    requires c < 256 && d < 256 && ip == c + 256 * d
    ensures Dotted(ip, 1) == Decimal(c) + "." + Decimal(d)
  {
    DottedUnfold(ip, 1, c, d);
    DottedZero(d, 0);
  }

  /** What is printed for an address, octet by octet. */
  lemma DottedIs(a: nat, b: nat, c: nat, d: nat)
    requires a < 256 && b < 256 && c < 256 && d < 256
    ensures Dotted(Stored(a, b, c, d), 3) == DottedQuad(a, b, c, d)
  {
    var u, v := c + 256 * d, b + 256 * (c + 256 * d);
    DottedLow(u, c, d);
    DottedUnfold(v, 2, b, u);
    DottedUnfold(a + 256 * v, 3, a, v);
    Regroup(Decimal(a), Decimal(b), Decimal(c), Decimal(d), Dotted(u, 1), Dotted(v, 2));
    assert a + 256 * v == Stored(a, b, c, d);
  }

  lemma Octets(ip: Word32) returns (a: nat, b: nat, c: nat, d: nat)
    ensures a < 256 && b < 256 && c < 256 && d < 256 && ip == Stored(a, b, c, d)
  {
    var r := ip / 256;
    a, b, c, d := ip % 256, r % 256, r / 256 % 256, r / 256 / 256;
  }

  lemma QuadHead(s: string, n: nat)
    requires Quad(s, n).Some?
    ensures var k := Span(NotDot, s, 0);
            Octet(s[..k]).Some? && s[..k] == Decimal(Octet(s[..k]).value) && Octet(s[..k]).value < 256 &&
            if n == 0 then s == s[..k] && Quad(s, n) == Octet(s[..k])
            else k < |s| && s == s[..k] + "." + s[k + 1..] && Quad(s[k + 1..], n - 1).Some? &&
                 Quad(s, n).value == Octet(s[..k]).value + 256 * Quad(s[k + 1..], n - 1).value
  {
    var k := Span(NotDot, s, 0);
    OctetMeaning(s[..k], Octet(s[..k]).value);
  }

  lemma QuadRest(s: string, low: nat, high: nat, n: nat)
    requires n > 0 && low < 256 && high < Pow256(n) && s == Decimal(low) + "." + Dotted(high, n - 1)
    ensures s == Dotted(low + 256 * high, n) && low + 256 * high < Pow256(n + 1)
  {
    DottedUnfold(low + 256 * high, n, low, high);
    assert Pow256(n + 1) == 256 * Pow256(n);
  }

  lemma QuadEnd(s: string)
    requires Quad(s, 0).Some?
    ensures s == Dotted(Quad(s, 0).value, 0) && Quad(s, 0).value < Pow256(1)
  {
    QuadHead(s, 0);
    assert Pow256(1) == 256 * Pow256(0);
  }

  lemma QuadParts(s: string, n: nat) returns (low: nat, rest: string, high: nat)
    requires n > 0 && Quad(s, n).Some?
    ensures low < 256 && s == Decimal(low) + "." + rest
    ensures Quad(rest, n - 1) == Some(high) && Quad(s, n) == Some(low + 256 * high)
  {
    var k := Span(NotDot, s, 0);
    QuadHead(s, n);
    low, rest := Octet(s[..k]).value, s[k + 1..];
    high := Quad(rest, n - 1).value;
  }

  /** What reads as octets is what is printed for them. */
  lemma {:induction false} QuadIsDotted(s: string, n: nat, ip: nat)
    requires Quad(s, n) == Some(ip)
    ensures s == Dotted(ip, n) && ip < Pow256(n + 1)
    decreases n
  {
    if n == 0 {
      QuadEnd(s);
    } else {
      var low, rest, high := QuadParts(s, n);
      QuadIsDotted(rest, n - 1, high);
      QuadRest(s, low, high, n);
    }
  }

  lemma FourBytes()
    ensures Pow256(4) == 0x1_0000_0000
  {
    assert Pow256(4) == 256 * Pow256(3) == 65536 * Pow256(2) == 0x100_0000 * Pow256(1);
  }

  lemma QuadMeaning(s: string, ip: Word32)
    ensures Quad(s, 3) == Some(ip) <==> s == Dotted(ip, 3)
  {
    FourBytes();
    QuadOfDotted(ip, 3);
    if Quad(s, 3) == Some(ip) {
      QuadIsDotted(s, 3, ip);
    }
  }

  /** What a host text is in memory: any address for a star, the broadcast address for `bc`, the octets of a
      strict dotted decimal, and for every other text what the C library makes of it. */
  ghost predicate HostIs(libc: Libc, s: string, ip: nat) {
    if s == "*" then ip == 0
    else if s == "bc" then ip == 0xFFFF_FFFF
    else if exists a, b, c, d :: IsQuad(s, a, b, c, d) then
      exists a, b, c, d :: IsQuad(s, a, b, c, d) && ip == Stored(a, b, c, d)
    else ip == libc(s)
  }

  lemma QuadHosts(s: string, ip: Word32)
    ensures Quad(s, 3) == Some(ip) <==> exists a, b, c, d :: IsQuad(s, a, b, c, d) && ip == Stored(a, b, c, d)
  {
    QuadMeaning(s, ip);
    if Quad(s, 3) == Some(ip) {
      var a, b, c, d := Octets(ip);
      DottedIs(a, b, c, d);
      assert IsQuad(s, a, b, c, d);
    }
    if a, b, c, d :| IsQuad(s, a, b, c, d) && ip == Stored(a, b, c, d) {
      DottedIs(a, b, c, d);
    }
  }

  lemma QuadFits(s: string)
    requires Quad(s, 3).Some?
    ensures Quad(s, 3).value < 0x1_0000_0000
  {
    FourBytes();
    QuadIsDotted(s, 3, Quad(s, 3).value);
  }

  lemma NoQuad(s: string)
    ensures Quad(s, 3) == None <==> !exists a, b, c, d :: IsQuad(s, a, b, c, d)
  {
    if Quad(s, 3).Some? {
      QuadFits(s);
      QuadHosts(s, Quad(s, 3).value);
    }
    if a, b, c, d :| IsQuad(s, a, b, c, d) {
      QuadHosts(s, Stored(a, b, c, d));
    }
  }

  /** Every host text is read as what it is. */
  lemma HostMeaning(libc: Libc, s: string, ip: Word32)
    ensures HostResult(libc, s) == ip <==> HostIs(libc, s, ip)
  {
    if s != "*" && s != "bc" {
      NoQuad(s);
      QuadHosts(s, ip);
      if Quad(s, 3).Some? {
        QuadFits(s);
      }
    }
  }
}
