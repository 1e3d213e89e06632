/** The separator codec: Ascii::pack and Ascii::unpack. */
module Ascii {
  ghost predicate Free(t: string, sep: char) { sep !in t }

  /** Where the first separator stands, or the length when there is none. */
  function Cut(s: string, sep: char): (k: nat)
    ensures k <= |s| && sep !in s[..k]
    ensures k < |s| ==> s[k] == sep
  {
    if s == "" || s[0] == sep then 0
    else
      var k := 1 + Cut(s[1..], sep);
      assert s[..k] == [s[0]] + s[1..][..k - 1];
      k
  }

  lemma {:induction false} CutIs(t: string, sep: char, rest: string)
    requires Free(t, sep) && (rest == "" || rest[0] == sep)
    ensures Cut(t + rest, sep) == |t|
  {
    if t == "" {
      assert t + rest == rest;
    } else {
      assert Free(t[1..], sep);
      assert (t + rest)[1..] == t[1..] + rest;
      assert (t + rest)[0] == t[0];
      CutIs(t[1..], sep, rest);
    }
  }

  /** The tokens a getline loop reads. Nothing follows a final separator. */
  function Split(s: string, sep: char): seq<string>
    decreases |s|
  {
    if s == "" then []
    else
      var k := Cut(s, sep);
      if k == |s| then [s] else [s[..k]] + Split(s[k + 1..], sep)
  }

  function Rest(v: seq<string>, sep: char): string {
    if v == [] then "" else [sep] + v[0] + Rest(v[1..], sep)
  }

  function Join(v: seq<string>, sep: char): string
    requires v != []
  {
    v[0] + Rest(v[1..], sep)
  }

  lemma SplitLast(t: string, sep: char)
    requires Free(t, sep) && t != ""
    ensures Split(t, sep) == [t]
  {
  }

  lemma SplitCons(t: string, sep: char, rest: string)
    requires Free(t, sep)
    ensures Split(t + [sep] + rest, sep) == [t] + Split(rest, sep)
  {
    var s := t + [sep] + rest;
    assert s == t + ([sep] + rest);
    CutIs(t, sep, [sep] + rest);
    assert s[..|t|] == t;
    assert s[|t| + 1..] == rest;
  }

  lemma SplitAfter(s: string, pos: nat, t: string, next: nat, sep: char)
    requires pos < next <= |s| && Free(t, sep)
    requires s[pos..next] == t + [sep] || (next == |s| && s[pos..] == t)
    ensures Split(s[pos..], sep) == [t] + Split(s[next..], sep)
  {
    if s[pos..next] == t + [sep] {
      assert s[pos..] == t + [sep] + s[next..];
      SplitCons(t, sep, s[next..]);
    } else {
      SplitLast(t, sep);
    }
  }

  lemma JoinCons(t: string, v: seq<string>, sep: char)
    requires v != []
    ensures Join([t] + v, sep) == t + [sep] + Join(v, sep)
  {
  }

  lemma Regroup(toks: seq<string>, token: string, rest: seq<string>)
    ensures toks + ([token] + rest) == (toks + [token]) + rest
  {
  }

  class Ascii {
    var toks: seq<string>
    const sep: char

    constructor (separator: char)
      ensures sep == separator && toks == []
    {
      sep := separator;
      toks := [];
    }

    /** The result depends on `str` alone: tokens of earlier calls are forgotten. */
    method Unpack(str: string) returns (r: seq<string>)
      modifies this
      ensures r == toks == Split(str, sep)
    {
      toks := [];
      var pos := 0;
      while pos < |str|
        invariant 0 <= pos <= |str|
        invariant toks + Split(str[pos..], sep) == Split(str, sep)
      {
        var token, next := GetLine(str, pos, sep);
        SplitAfter(str, pos, token, next, sep);
        Regroup(toks, token, Split(str[next..], sep));
        toks := toks + [token];
        pos := next;
      }
      r := toks;
    }

    method Pack(v: seq<string>) returns (ss: string)
      requires v != []
      ensures ss == Join(v, sep)
    {
      ss := v[0];
      var i := 1;
      while i < |v|
        invariant 1 <= i <= |v|
        invariant ss + Rest(v[i..], sep) == Join(v, sep)
      {
        ss := ss + [sep] + v[i];
        assert v[i..][1..] == v[i + 1..];
        i := i + 1;
      }
    }
  }

  /** One getline from a stream with characters left: the token up to a separator or the end,
      and where the next one starts. */
  method GetLine(s: string, pos: nat, sep: char) returns (token: string, next: nat)
    requires pos < |s|
    ensures Free(token, sep)
    ensures pos < next <= |s|
    ensures s[pos..next] == token + [sep] || (next == |s| && s[pos..] == token)
  {
    var k := pos;
    while k < |s| && s[k] != sep
      invariant pos <= k <= |s| && sep !in s[pos..k]
    {
      k := k + 1;
    }
    token := s[pos..k];
    next := if k < |s| then k + 1 else k;
  }

  /** Unpacking what was packed loses the last token exactly when that token is empty. */
  lemma {:induction false} UnpackPack(v: seq<string>, sep: char)
    requires v != [] && forall t :: t in v ==> Free(t, sep)
    ensures Split(Join(v, sep), sep) == if v[|v| - 1] == "" then v[..|v| - 1] else v
  {
    var t, w := v[0], v[1..];
    assert v == [t] + w;
    if w == [] {
      assert Join(v, sep) == t;
      if t != "" {
        SplitLast(t, sep);
      }
    } else {
      JoinCons(t, w, sep);
      SplitCons(t, sep, Join(w, sep));
      UnpackPack(w, sep);
      assert [t] + w[..|w| - 1] == v[..|v| - 1];
    }
  }

  function WithoutFinal(s: string, sep: char): string
    requires s != ""
  {
    if s[|s| - 1] == sep then s[..|s| - 1] else s
  }

  lemma WithoutFinalCons(t: string, sep: char, rest: string)
    requires rest != ""
    ensures WithoutFinal(t + [sep] + rest, sep) == t + [sep] + WithoutFinal(rest, sep)
  {
  }

  /** Packing what was unpacked loses the final separator exactly when the text ends in one. */
  lemma {:induction false} PackUnpack(s: string, sep: char)
    requires s != ""
    ensures Split(s, sep) != []
    ensures Join(Split(s, sep), sep) == WithoutFinal(s, sep)
    decreases |s|
  {
    var k := Cut(s, sep);
    if k == |s| {
      assert s[..k] == s;
      SplitLast(s, sep);
    } else {
      var t, rest := s[..k], s[k + 1..];
      assert s == t + [sep] + rest;
      PackUnpackCut(t, sep, rest);
    }
  }

  lemma {:induction false} PackUnpackCut(t: string, sep: char, rest: string)
    requires Free(t, sep)
    ensures var s := t + [sep] + rest;
            Split(s, sep) != [] && Join(Split(s, sep), sep) == WithoutFinal(s, sep)
    decreases 1 + |t| + |rest|, 0
  {
    SplitCons(t, sep, rest);
    if rest == "" {
      assert (t + [sep])[..|t|] == t;
      assert t + [sep] + rest == t + [sep];
    } else {
      PackUnpack(rest, sep);
      JoinCons(t, Split(rest, sep), sep);
      WithoutFinalCons(t, sep, rest);
    }
  }
}
