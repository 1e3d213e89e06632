/** A reference matcher for the part of std::regex's default grammar that the library uses
    (section 15.10.2 of ECMA-262, 3rd edition): all ways to match at a position, in the order in
    which the backtracking matcher tries them. The first one is the match. */
module Regex {
  import opened Wire

  datatype Re =
    | Chr(c: char)
    | Cat(first: Re, second: Re)
    | Or(left: Re, right: Re)
    | Plus(cls: string)             // a character class, one or more times, greedy
    | Group(n: nat, body: Re)

  datatype Thread = Thread(pos: nat, caps: map<nat, (nat, nat)>)

  /** The text of the two capture groups of a match. */
  datatype Found = Found(first: string, second: string)

  function Word(w: string): Re
    requires w != ""
  {
    if |w| == 1 then Chr(w[0]) else Cat(Chr(w[0]), Word(w[1..]))
  }

  datatype Atom = Atom(next: nat, lo: char, hi: char)

  /** One ClassAtom of the text between the brackets, escaped or plain. */
  function ClassAtom(t: string, i: nat): (a: Atom)
    requires i < |t|
    ensures i < a.next <= |t|
  {
    if t[i] == '\\' && i + 1 < |t| then
      if t[i + 1] == 'd' then Atom(i + 2, '0', '9') else Atom(i + 2, t[i + 1], t[i + 1])
    else Atom(i + 1, t[i], t[i])
  }

  /** Membership in a character class, read from its text: a hyphen between two atoms makes a range. */
  predicate InClass(t: string, i: nat, c: char)
    requires i <= |t|
    decreases |t| - i, c
  {
    i < |t| &&
    var a := ClassAtom(t, i);
    if a.next + 1 < |t| && t[a.next] == '-' then
      var b := ClassAtom(t, a.next + 1);
      a.lo <= c <= b.hi || InClass(t, b.next, c)
    else a.lo <= c <= a.hi || InClass(t, a.next, c)
  }

  ghost predicate Within(ts: seq<Thread>, i: nat, n: nat) {
    forall k :: 0 <= k < |ts| ==> i <= ts[k].pos <= n
  }

  function Matches(r: Re, s: string, i: nat, caps: map<nat, (nat, nat)>): (ts: seq<Thread>)
    requires i <= |s|
    ensures Within(ts, i, |s|)
    decreases r, 0, |s|
  {
    match r
    case Chr(c) => if i < |s| && s[i] == c then [Thread(i + 1, caps)] else []
    case Cat(a, b) => Continue(Matches(a, s, i, caps), b, s, i)
    case Or(a, b) => Matches(a, s, i, caps) + Matches(b, s, i, caps)
    case Plus(cls) => Repeats(cls, s, i, caps)
    case Group(n, a) => Capture(n, i, Matches(a, s, i, caps), |s|)
  }

  /** The second part is tried after every way to match the first, in order. */
  function Continue(ts: seq<Thread>, b: Re, s: string, i: nat): (us: seq<Thread>)
    requires Within(ts, i, |s|)
    ensures Within(us, i, |s|)
    decreases b, 1 + |ts|
  {
    if ts == [] then []
    else Matches(b, s, ts[0].pos, ts[0].caps) + Continue(ts[1..], b, s, i)
  }

  /** Greedy: longer runs come first. */
  function Repeats(cls: string, s: string, i: nat, caps: map<nat, (nat, nat)>): (ts: seq<Thread>)
    requires i <= |s|
    ensures Within(ts, i, |s|)
    decreases |s| - i
  {
    if i < |s| && InClass(cls, 0, s[i]) then Repeats(cls, s, i + 1, caps) + [Thread(i + 1, caps)] else []
  }

  function Capture(n: nat, i: nat, ts: seq<Thread>, end: nat): (us: seq<Thread>)
    requires Within(ts, i, end)
    ensures Within(us, i, end)
    ensures |us| == |ts|
    ensures forall k :: 0 <= k < |us| ==> us[k] == Thread(ts[k].pos, ts[k].caps[n := (i, ts[k].pos)])
  {
    seq(|ts|, k requires 0 <= k < |ts| => Thread(ts[k].pos, ts[k].caps[n := (i, ts[k].pos)]))
  }

  function Sub(s: string, t: Thread, n: nat): string {
    if n in t.caps && t.caps[n].0 <= t.caps[n].1 <= |s| then s[t.caps[n].0..t.caps[n].1] else ""
  }

  /** regex_search: the first match at the leftmost position that has one. */
  function SearchFrom(r: Re, s: string, i: nat): Option<Found>
    requires i <= |s|
    decreases |s| - i
  {
    var ts := Matches(r, s, i, map[]);
    if ts != [] then Some(Found(Sub(s, ts[0], 1), Sub(s, ts[0], 2)))
    else if i < |s| then SearchFrom(r, s, i + 1)
    else None
  }

  function Search(r: Re, s: string): Option<Found> {
    SearchFrom(r, s, 0)
  }

  lemma {:induction false} SearchHits(r: Re, s: string, i: nat, k: nat)
    requires i <= k <= |s|
    requires forall j :: i <= j < k ==> Matches(r, s, j, map[]) == []
    requires Matches(r, s, k, map[]) != []
    ensures var t := Matches(r, s, k, map[])[0];
            SearchFrom(r, s, i) == Some(Found(Sub(s, t, 1), Sub(s, t, 2)))
    decreases k - i
  {
    if i < k {
      SearchHits(r, s, i + 1, k);
    }
  }

  lemma SearchFinds(r: Re, s: string, k: nat, t: Thread, a: (nat, nat), b: (nat, nat))
    requires k <= |s| && a.0 <= a.1 <= |s| && b.0 <= b.1 <= |s| && t.caps == map[1 := a, 2 := b]
    requires forall j :: 0 <= j < k ==> Matches(r, s, j, map[]) == []
    requires Matches(r, s, k, map[]) != [] && Matches(r, s, k, map[])[0] == t
    ensures Search(r, s) == Some(Found(s[a.0..a.1], s[b.0..b.1]))
  {
    SearchHits(r, s, 0, k);
  }

  lemma {:induction false} SearchMisses(r: Re, s: string, i: nat)
    requires i <= |s|
    requires forall j :: i <= j <= |s| ==> Matches(r, s, j, map[]) == []
    ensures SearchFrom(r, s, i) == None
    decreases |s| - i
  {
    if i < |s| {
      SearchMisses(r, s, i + 1);
    }
  }

  predicate At(s: string, i: nat, w: string) {
    i + |w| <= |s| && s[i..i + |w|] == w
  }

  lemma {:induction false} WordMatches(w: string, s: string, i: nat, caps: map<nat, (nat, nat)>)
    requires w != "" && i <= |s|
    ensures Matches(Word(w), s, i, caps) == if At(s, i, w) then [Thread(i + |w|, caps)] else []
  {
    if i < |s| {
      AtCons(w, s, i);
      if |w| > 1 && s[i] == w[0] {
        WordMatches(w[1..], s, i + 1, caps);
        ContinueOne(Thread(i + 1, caps), Word(w[1..]), s, i);
      }
    }
  }

  lemma AtCons(w: string, s: string, i: nat)
    requires w != "" && i < |s|
    ensures At(s, i, w) <==> s[i] == w[0] && At(s, i + 1, w[1..])
  {
    if i + |w| <= |s| {
      assert s[i..i + |w|] == [s[i]] + s[i + 1..i + |w|];
      assert w == [w[0]] + w[1..];
    }
  }

  /** The continuation of a single thread. */
  lemma ContinueOne(t: Thread, b: Re, s: string, i: nat)
    requires i <= t.pos <= |s|
    ensures Continue([t], b, s, i) == Matches(b, s, t.pos, t.caps)
  {
  }
}
