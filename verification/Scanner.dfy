/** The scanners, and the proof that they find what the backtracking matcher finds first. */
module Scanner {
  import opened Wire
  import opened Text
  import opened Regex
  import opened Patterns

  /** The class text accepts the characters of `p` and no others. */
  ghost predicate Reads(cls: string, p: char -> bool) {
    forall c :: InClass(cls, 0, c) <==> p(c)
  }

  lemma HostReads()
    ensures Reads(HOST_CLASS, IsHost)
  {
    forall c ensures InClass(HOST_CLASS, 0, c) <==> IsHost(c) { HostClass(c); }
  }

  lemma PortReads()
    ensures Reads(PORT_CLASS, IsPort)
  {
    forall c ensures InClass(PORT_CLASS, 0, c) <==> IsPort(c) { PortClass(c); }
  }

  lemma PathReads()
    ensures Reads(PATH_CLASS, IsPath)
  {
    forall c ensures InClass(PATH_CLASS, 0, c) <==> IsPath(c) { PathClass(c); }
  }

  /** All runs of a class from `i`, longest first. */
  lemma {:induction false} RepeatsAre(cls: string, p: char -> bool, s: string, i: nat, caps: map<nat, (nat, nat)>)
    requires i <= |s| && Reads(cls, p)
    ensures var e := Span(p, s, i);
            var ts := Repeats(cls, s, i, caps);
            |ts| == e - i && forall k :: 0 <= k < |ts| ==> ts[k] == Thread(e - k, caps)
    decreases |s| - i
  {
    if i < |s| && p(s[i]) {
      RepeatsAre(cls, p, s, i + 1, caps);
    }
  }

  /** A captured run: empty, or first of all the longest one. */
  lemma RunMatches(n: nat, cls: string, p: char -> bool, s: string, i: nat, caps: map<nat, (nat, nat)>)
    requires i <= |s| && Reads(cls, p)
    ensures var e := Span(p, s, i);
            var ts := Matches(Group(n, Plus(cls)), s, i, caps);
            |ts| == e - i && forall k :: 0 <= k < |ts| ==> ts[k] == Thread(e - k, caps[n := (i, e - k)])
  {
    RepeatsAre(cls, p, s, i, caps);
  }

  // ---- the first pattern ----

  /** The length of the scheme word at `i`, or 0. */
  function SchemeLength(s: string, i: nat): nat {
    if At(s, i, "udp") || At(s, i, "tcp") then 3 else if At(s, i, "unix") then 4 else 0
  }

  /** A match of the first pattern at `i`: scheme of length `k`, then `://`, then a path up to `e`
      that is not empty and could not be longer. */
  predicate ProtoAt(s: string, i: nat, k: nat, e: nat) {
    k == SchemeLength(s, i) && k > 0 && At(s, i + k, "://") &&
    i + k + 3 < e <= |s| && e == Span(IsPath, s, i + k + 3)
  }

  function Hit(s: string, i: nat, w: string): seq<Thread> {
    if At(s, i, w) then [Thread(i + |w|, map[])] else []
  }

  lemma ThreeWords(a: string, b: string, c: string, s: string, i: nat)
    requires a != "" && b != "" && c != "" && i <= |s|
    ensures Matches(Or(Word(a), Or(Word(b), Word(c))), s, i, map[]) ==
            Hit(s, i, a) + (Hit(s, i, b) + Hit(s, i, c))
  {
    WordMatches(a, s, i, map[]);
    WordMatches(b, s, i, map[]);
    WordMatches(c, s, i, map[]);
  }

  /** At most one scheme word stands at a position. */
  lemma SchemesExclude(s: string, i: nat)
    ensures At(s, i, "udp") ==> !At(s, i, "tcp") && !At(s, i, "unix")
    ensures At(s, i, "tcp") ==> !At(s, i, "unix")
  {
    assert At(s, i, "udp") ==> s[i] == "udp"[0] && s[i + 1] == "udp"[1];
    assert At(s, i, "tcp") ==> s[i] == "tcp"[0];
    assert At(s, i, "unix") ==> s[i] == "unix"[0] && s[i + 1] == "unix"[1];
  }

  lemma SchemeWords(s: string, i: nat)
    requires i <= |s|
    ensures var k := SchemeLength(s, i);
            Matches(Or(Word("udp"), Or(Word("tcp"), Word("unix"))), s, i, map[]) ==
            if k == 0 then [] else [Thread(i + k, map[])]
  {
    ThreeWords("udp", "tcp", "unix", s, i);
    SchemesExclude(s, i);
  }

  lemma SchemeMatches(s: string, i: nat)
    requires i <= |s|
    ensures var k := SchemeLength(s, i);
            Matches(SCHEME, s, i, map[]) == if k == 0 then [] else [Thread(i + k, map[1 := (i, i + k)])]
  {
    SchemeWords(s, i);
  }

  lemma ProtoMatches(s: string, i: nat)
    requires i <= |s|
    ensures var ts := Matches(PROTO, s, i, map[]);
            var k := SchemeLength(s, i);
            if k > 0 && At(s, i + k, "://") && Span(IsPath, s, i + k + 3) > i + k + 3 then
              var e := Span(IsPath, s, i + k + 3);
              ts != [] && ts[0] == Thread(e, map[1 := (i, i + k), 2 := (i + k + 3, e)])
            else ts == []
  {
    var k := SchemeLength(s, i);
    SchemeMatches(s, i);
    if k > 0 {
      var caps := map[1 := (i, i + k)];
      ContinueOne(Thread(i + k, caps), Cat(Word("://"), PATH), s, i);
      WordMatches("://", s, i + k, caps);
      if At(s, i + k, "://") {
        var b := i + k + 3;
        ContinueOne(Thread(b, caps), PATH, s, i + k);
        PathReads();
        RunMatches(2, PATH_CLASS, IsPath, s, b, caps);
      }
    }
  }

  lemma NoProto(s: string, i: nat)
    requires i <= |s| && forall k, e :: !ProtoAt(s, i, k, e)
    ensures Matches(PROTO, s, i, map[]) == []
  {
    var k := SchemeLength(s, i);
    assert k > 0 && At(s, i + k, "://") ==> !ProtoAt(s, i, k, Span(IsPath, s, i + k + 3));
    ProtoMatches(s, i);
  }

  /** The search by the first pattern in plain words: the leftmost position with a match decides. */
  lemma ProtoSearch(s: string, i: nat, k: nat, e: nat)
    requires ProtoAt(s, i, k, e)
    requires forall j, kk, ee :: 0 <= j < i ==> !ProtoAt(s, j, kk, ee)
    ensures Search(PROTO, s) == Some(Found(s[i..i + k], s[i + k + 3..e]))
  {
    var r := PROTO;
    forall j | 0 <= j < i ensures Matches(r, s, j, map[]) == [] {
      NoProto(s, j);
    }
    ProtoMatches(s, i);
    var b := i + k + 3;
    SearchFinds(r, s, i, Thread(e, map[1 := (i, i + k), 2 := (b, e)]), (i, i + k), (b, e));
  }

  /** ... and when there is no match at any position, the search fails. */
  lemma ProtoSearchFails(s: string)
    ensures Search(PROTO, s) == None <==> forall i, k, e :: 0 <= i <= |s| ==> !ProtoAt(s, i, k, e)
  {
    if forall i, k, e :: 0 <= i <= |s| ==> !ProtoAt(s, i, k, e) {
      var r := PROTO;
      forall j | 0 <= j <= |s| ensures Matches(r, s, j, map[]) == [] {
        NoProto(s, j);
      }
      SearchMisses(r, s, 0);
    } else {
      var i, k, e :| 0 <= i <= |s| && ProtoAt(s, i, k, e);
      i, k, e := LeftmostProto(s, i, k, e);
      ProtoSearch(s, i, k, e);
    }
  }

  lemma {:induction false} LeftmostProto(s: string, i: nat, k: nat, e: nat) returns (i': nat, k': nat, e': nat)
    requires ProtoAt(s, i, k, e)
    ensures ProtoAt(s, i', k', e') && forall j, kk, ee :: 0 <= j < i' ==> !ProtoAt(s, j, kk, ee)
    decreases i
  {
    if j, kk, ee :| 0 <= j < i && ProtoAt(s, j, kk, ee) {
      i', k', e' := LeftmostProto(s, j, kk, ee);
    } else {
      i', k', e' := i, k, e;
    }
  }

  lemma CapturesOf(s: string, i: nat, k: nat, e: nat)
    requires ProtoAt(s, i, k, e)
    ensures s[i..i + k] == "udp" || s[i..i + k] == "tcp" || s[i..i + k] == "unix"
    ensures var path := s[i + k + 3..e];
            path != "" && forall j :: 0 <= j < |path| ==> IsPath(path[j])
  {
  }

  /** What a successful search captures: a scheme word, and accepted characters only. */
  lemma ProtoCaptures(s: string)
    requires Search(PROTO, s).Some?
    ensures var m := Search(PROTO, s).value;
            (m.first == "udp" || m.first == "tcp" || m.first == "unix") && m.second != "" &&
            forall i :: 0 <= i < |m.second| ==> IsPath(m.second[i])
  {
    var m := Search(PROTO, s);
    ProtoSearchFails(s);
    var i, k, e :| 0 <= i <= |s| && ProtoAt(s, i, k, e);
    i, k, e := LeftmostProto(s, i, k, e);
    ProtoSearch(s, i, k, e);
    CapturesOf(s, i, k, e);
  }

  /** regex_search with the first pattern, without backtracking. */
  method ScanProto(s: string) returns (m: Option<Found>)
    ensures m == Search(PROTO, s)
  {
    var i := 0;
    while i < |s|
      invariant 0 <= i <= |s|
      invariant forall j, k, e :: 0 <= j < i ==> !ProtoAt(s, j, k, e)
    {
      var k := SchemeLength(s, i);
      if k > 0 && At(s, i + k, "://") {
        var e := ScanRun(IsPath, s, i + k + 3);
        if e > i + k + 3 {
          ProtoSearch(s, i, k, e);
          return Some(Found(s[i..i + k], s[i + k + 3..e]));
        }
      }
      i := i + 1;
    }
    ProtoSearchFails(s);
    m := None;
  }

  method ScanRun(p: char -> bool, s: string, i: nat) returns (e: nat)
    requires i <= |s|
    ensures e == Span(p, s, i)
  {
    e := i;
    while e < |s| && p(s[e])
      invariant i <= e <= |s| && Span(p, s, e) == Span(p, s, i)
    {
      e := e + 1;
    }
  }

  // ---- the second pattern ----

  /** A match of the second pattern at `i`: a host that ends at `h` with a colon, then a port up to `e`,
      neither empty and neither able to be longer. */
  predicate IpPortAt(s: string, i: nat, h: nat, e: nat) {
    i < h < |s| && h == Span(IsHost, s, i) && s[h] == ':' &&
    h + 1 < e <= |s| && e == Span(IsPort, s, h + 1)
  }

  /** Threads that do not stand before a colon cannot go on. */
  lemma {:induction false} NoColonFails(ts: seq<Thread>, port: Re, s: string, i: nat)
    requires Within(ts, i, |s|)
    requires forall k :: 0 <= k < |ts| ==> ts[k].pos < |s| && s[ts[k].pos] != ':'
    ensures Continue(ts, Cat(Chr(':'), port), s, i) == []
  {
    if ts != [] {
      HostThenPort(port, s, ts[0].pos, ts[0].caps);
      NoColonFails(ts[1..], port, s, i);
    }
  }

  lemma ShorterRunsFail(ts: seq<Thread>, p: char -> bool, port: Re, s: string, i: nat)
    requires i <= |s| && !p(':') && Within(ts, i, |s|) && ts != []
    requires forall k :: 0 <= k < |ts| ==> ts[k].pos == Span(p, s, i) - k
    ensures Continue(ts[1..], Cat(Chr(':'), port), s, i) == []
  {
    forall k | 0 <= k < |ts| - 1 ensures ts[1..][k].pos < |s| && s[ts[1..][k].pos] != ':' {
      assert ts[1..][k] == ts[k + 1];
      assert p(s[ts[k + 1].pos]);
    }
    NoColonFails(ts[1..], port, s, i);
  }

  /** Of all runs of the first class only the longest, the first thread, can go on to a colon. */
  lemma OnlyFirstGoesOn(ts: seq<Thread>, p: char -> bool, port: Re, s: string, i: nat)
    requires i <= |s| && !p(':') && Within(ts, i, |s|) && ts != []
    requires forall k :: 0 <= k < |ts| ==> ts[k].pos == Span(p, s, i) - k
    ensures Continue(ts, Cat(Chr(':'), port), s, i) == Matches(Cat(Chr(':'), port), s, ts[0].pos, ts[0].caps)
  {
    ShorterRunsFail(ts, p, port, s, i);
  }

  /** All runs of the first class, longest first, then a colon and the rest. */
  lemma RunsThenPort(ts: seq<Thread>, p: char -> bool, port: Re, s: string, i: nat, caps: map<nat, (nat, nat)>)
    requires i <= |s| && !p(':') && Within(ts, i, |s|) && |ts| == Span(p, s, i) - i
    requires forall k :: 0 <= k < |ts| ==> ts[k].pos == Span(p, s, i) - k
    requires ts != [] ==> ts[0].caps == caps
    ensures var h := Span(p, s, i);
            Continue(ts, Cat(Chr(':'), port), s, i) ==
            if i < h < |s| && s[h] == ':' then Matches(port, s, h + 1, caps) else []
  {
    if ts != [] {
      OnlyFirstGoesOn(ts, p, port, s, i);
      HostThenPort(port, s, ts[0].pos, caps);
    }
  }

  lemma CatMatches(a: Re, b: Re, s: string, i: nat, caps: map<nat, (nat, nat)>)
    requires i <= |s|
    ensures Matches(Cat(a, b), s, i, caps) == Continue(Matches(a, s, i, caps), b, s, i)
  {
  }

  /** A run, a colon, a run: when colons are not in the first class, only its longest run can be
      followed by a colon, since every shorter one is followed by a character of the class. */
  lemma RunColonRun(host: string, p: char -> bool, port: Re, s: string, i: nat)
    requires i <= |s| && !p(':') && Reads(host, p)
    ensures var h := Span(p, s, i);
            Matches(Cat(Group(1, Plus(host)), Cat(Chr(':'), port)), s, i, map[]) ==
            if i < h < |s| && s[h] == ':' then Matches(port, s, h + 1, map[1 := (i, h)]) else []
  {
    var run := Group(1, Plus(host));
    RunMatches(1, host, p, s, i, map[]);
    CatMatches(run, Cat(Chr(':'), port), s, i, map[]);
    RunsThenPort(Matches(run, s, i, map[]), p, port, s, i, map[1 := (i, Span(p, s, i))]);
  }

  lemma HostThenPort(port: Re, s: string, h: nat, caps: map<nat, (nat, nat)>)
    requires h <= |s|
    ensures Matches(Cat(Chr(':'), port), s, h, caps) ==
            if h < |s| && s[h] == ':' then Matches(port, s, h + 1, caps) else []
  {
    if h < |s| && s[h] == ':' {
      ContinueOne(Thread(h + 1, caps), port, s, h);
    }
  }

  lemma IpPortUnfold(s: string, i: nat)
    requires i <= |s|
    ensures var h := Span(IsHost, s, i);
            Matches(IPPORT, s, i, map[]) ==
            if i < h < |s| && s[h] == ':' then Matches(PORT, s, h + 1, map[1 := (i, h)]) else []
  {
    HostReads();
    RunColonRun(HOST_CLASS, IsHost, PORT, s, i);
  }

  lemma PortMatches(s: string, b: nat, caps: map<nat, (nat, nat)>)
    requires b <= |s|
    ensures var e := Span(IsPort, s, b);
            var ts := Matches(PORT, s, b, caps);
            |ts| == e - b && (b < e ==> ts[0] == Thread(e, caps[2 := (b, e)]))
  {
    PortReads();
    RunMatches(2, PORT_CLASS, IsPort, s, b, caps);
  }

  lemma NoIpPort(s: string, i: nat)
    requires i <= |s| && forall h, e :: !IpPortAt(s, i, h, e)
    ensures Matches(IPPORT, s, i, map[]) == []
  {
    var h := Span(IsHost, s, i);
    IpPortUnfold(s, i);
    if i < h < |s| && s[h] == ':' {
      assert !IpPortAt(s, i, h, Span(IsPort, s, h + 1));
      PortMatches(s, h + 1, map[1 := (i, h)]);
    }
  }

  lemma IpPortMatches(s: string, i: nat, h: nat, e: nat)
    requires IpPortAt(s, i, h, e)
    ensures var ts := Matches(IPPORT, s, i, map[]);
            ts != [] && ts[0] == Thread(e, map[1 := (i, h), 2 := (h + 1, e)])
  {
    IpPortUnfold(s, i);
    PortMatches(s, h + 1, map[1 := (i, h)]);
  }

  /** The search by the second pattern in plain words. */
  lemma IpPortSearch(s: string, i: nat, h: nat, e: nat)
    requires IpPortAt(s, i, h, e)
    requires forall j, hh, ee :: 0 <= j < i ==> !IpPortAt(s, j, hh, ee)
    ensures Search(IPPORT, s) == Some(Found(s[i..h], s[h + 1..e]))
  {
    var r := IPPORT;
    forall j | 0 <= j < i ensures Matches(r, s, j, map[]) == [] {
      NoIpPort(s, j);
    }
    IpPortMatches(s, i, h, e);
    SearchFinds(r, s, i, Thread(e, map[1 := (i, h), 2 := (h + 1, e)]), (i, h), (h + 1, e));
  }

  /** ... and when there is no match at any position, the search fails. */
  lemma IpPortSearchFails(s: string)
    ensures Search(IPPORT, s) == None <==> forall i, h, e :: 0 <= i <= |s| ==> !IpPortAt(s, i, h, e)
  {
    if forall i, h, e :: 0 <= i <= |s| ==> !IpPortAt(s, i, h, e) {
      var r := IPPORT;
      forall j | 0 <= j <= |s| ensures Matches(r, s, j, map[]) == [] {
        NoIpPort(s, j);
      }
      SearchMisses(r, s, 0);
    } else {
      var i, h, e :| 0 <= i <= |s| && IpPortAt(s, i, h, e);
      i, h, e := LeftmostIpPort(s, i, h, e);
      IpPortSearch(s, i, h, e);
    }
  }

  lemma {:induction false} LeftmostIpPort(s: string, i: nat, h: nat, e: nat) returns (i': nat, h': nat, e': nat)
    requires IpPortAt(s, i, h, e)
    ensures IpPortAt(s, i', h', e') && forall j, hh, ee :: 0 <= j < i' ==> !IpPortAt(s, j, hh, ee)
    decreases i
  {
    if j, hh, ee :| 0 <= j < i && IpPortAt(s, j, hh, ee) {
      i', h', e' := LeftmostIpPort(s, j, hh, ee);
    } else {
      i', h', e' := i, h, e;
    }
  }

  /** regex_search with the second pattern, without backtracking. */
  method ScanIpPort(s: string) returns (m: Option<Found>)
    ensures m == Search(IPPORT, s)
  {
    var i := 0;
    while i < |s|
      invariant 0 <= i <= |s|
      invariant forall j, h, e :: 0 <= j < i ==> !IpPortAt(s, j, h, e)
    {
      var h := ScanRun(IsHost, s, i);
      if i < h < |s| && s[h] == ':' {
        var e := ScanRun(IsPort, s, h + 1);
        if e > h + 1 {
          IpPortSearch(s, i, h, e);
          return Some(Found(s[i..h], s[h + 1..e]));
        }
      }
      i := i + 1;
    }
    IpPortSearchFails(s);
    m := None;
  }
}
