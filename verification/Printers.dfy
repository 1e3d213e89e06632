/** The address printers. */
module Printers {
  import opened Wire
  import opened Text
  import opened Scanner
  import opened SockAddr
  import opened AddressLaws

  /** The printed text is an address text for the same address, under any C library; nothing is printed for
      other families. */
  method Inet2String(a: Addr) returns (host: string)
    ensures a.Inet? ==> forall libc: Libc :: Filtered(libc, "udp://" + host) == Ok(a)
    ensures a.Inet? ==> host == InetText(a)
    ensures !a.Inet? ==> host == ""
  {
    if a.Inet? {
      host := Dotted(a.sAddr, 3);
      host := host + (":" + Decimal(Htons(a.sinPort)));
      assert host == InetText(a);
      forall libc: Libc ensures Filtered(libc, "udp://" + InetText(a)) == Ok(a) {
        InetRoundTrip(libc, a);
      }
      return;
    }
    host := "";
  }

  /** A C string ends at its first NUL: with none, the source reads past sun_path. */
  method Unix2String(a: Addr) returns (host: string)
    requires a.Unix? ==> '\0' in a.sunPath
    ensures a.Unix? ==> host == UnixText(a)
    ensures a.Unix? ==> |host| < |a.sunPath| && host == a.sunPath[..|host|]
    ensures a.Unix? ==> '\0' !in host && a.sunPath[|host|] == '\0'
    ensures !a.Unix? ==> host == ""
  {
    host := "";
    if a.Unix? {
      var e := ScanRun(NotNul, a.sunPath, 0);
      host := a.sunPath[..e];
    }
  }
}
