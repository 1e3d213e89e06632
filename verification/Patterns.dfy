/** The library's two address patterns, and the characters their classes accept. */
module Patterns {
  import opened Text
  import opened Regex

  // The three bracketed classes, as written in the source.
  const PATH_CLASS := "a-z,A-Z,\\d,\\/,.,*,_,-,:"
  const HOST_CLASS := "a-z,A-Z,\\d,\\/,.,*"
  const PORT_CLASS := "*,\\d"

  const SCHEME := Group(1, Or(Word("udp"), Or(Word("tcp"), Word("unix"))))
  const PATH := Group(2, Plus(PATH_CLASS))
  const PROTO := Cat(SCHEME, Cat(Word("://"), PATH))

  const HOST := Group(1, Plus(HOST_CLASS))
  const PORT := Group(2, Plus(PORT_CLASS))
  const IPPORT := Cat(HOST, Cat(Chr(':'), PORT))

  predicate IsPort(c: char) { IsDigit(c) || c == '*' || c == ',' }

  predicate IsHost(c: char) {
    'a' <= c <= 'z' || 'A' <= c <= 'Z' || IsDigit(c) || c == '*' || c == ',' || c == '.' || c == '/'
  }

  predicate IsPath(c: char) { IsHost(c) || c == '_' || c == ':' }

  /** A class reads its text from the left: a range, or an escaped or plain character, then the rest. */
  lemma ClassRange(t: string, i: nat, c: char)
    requires i + 2 < |t| && t[i] != '\\' && t[i + 1] == '-' && t[i + 2] != '\\'
    ensures InClass(t, i, c) <==> t[i] <= c <= t[i + 2] || InClass(t, i + 3, c)
  {
  }

  lemma ClassChar(t: string, i: nat, c: char)
    requires i < |t| && t[i] != '\\' && (i + 2 < |t| ==> t[i + 1] != '-')
    ensures InClass(t, i, c) <==> c == t[i] || InClass(t, i + 1, c)
  {
  }

  lemma ClassEscape(t: string, i: nat, c: char)
    requires i + 1 < |t| && t[i] == '\\' && (i + 3 < |t| ==> t[i + 2] != '-')
    ensures InClass(t, i, c) <==> (if t[i + 1] == 'd' then IsDigit(c) else c == t[i + 1]) || InClass(t, i + 2, c)
  {
  }

  /** Both address classes begin with the letters, the digits, a slash, a full stop and a star. */
  lemma ClassPrefix(t: string, c: char)
    requires |t| >= 17 && t[..17] == HOST_CLASS && (|t| > 18 ==> t[17] != '-')
    ensures InClass(t, 0, c) <==> IsHost(c) || InClass(t, 17, c)
  {
    ClassPrefixLetters(t, c);
    ClassPrefixDigits(t, c);
  }

  lemma ClassPrefixLetters(t: string, c: char)
    requires |t| >= 17 && t[..17] == HOST_CLASS
    ensures InClass(t, 0, c) <==> 'a' <= c <= 'z' || 'A' <= c <= 'Z' || c == ',' || InClass(t, 8, c)
  {
    assert forall i :: 0 <= i < 17 ==> t[i] == HOST_CLASS[i];
    ClassChar(t, 7, c);
    ClassRange(t, 4, c);
    ClassChar(t, 3, c);
    ClassRange(t, 0, c);
  }

  lemma ClassPrefixDigits(t: string, c: char)
    requires |t| >= 17 && t[..17] == HOST_CLASS && (|t| > 18 ==> t[17] != '-')
    ensures InClass(t, 8, c) <==>
            IsDigit(c) || c == ',' || c == '/' || c == '.' || c == '*' || InClass(t, 17, c)
  {
    assert forall i :: 0 <= i < 17 ==> t[i] == HOST_CLASS[i];
    ClassChar(t, 16, c);
    ClassChar(t, 15, c);
    ClassChar(t, 14, c);
    ClassChar(t, 13, c);
    ClassEscape(t, 11, c);
    ClassChar(t, 10, c);
    ClassEscape(t, 8, c);
  }

  lemma PortClass(c: char)
    ensures InClass(PORT_CLASS, 0, c) <==> IsPort(c)
    ensures InClass(PORT_CLASS, 0, c) <==> '0' <= c <= '9' || c in "*,"
  {
    var t := PORT_CLASS;
    assert |t| == 4;
    ClassEscape(t, 2, c);
    ClassChar(t, 1, c);
    ClassChar(t, 0, c);
  }

  lemma HostClass(c: char)
    ensures InClass(HOST_CLASS, 0, c) <==> IsHost(c)
    ensures InClass(HOST_CLASS, 0, c) <==> 'a' <= c <= 'z' || 'A' <= c <= 'Z' || '0' <= c <= '9' || c in "/.,*"
  {
    ClassPrefix(HOST_CLASS, c);
  }

  /** In the text of the first pattern's class `,-,` is a range that holds only the comma. */
  lemma PathClassTail(c: char)
    ensures |PATH_CLASS| == 23
    ensures InClass(PATH_CLASS, 17, c) <==> c == ',' || c == '_' || c == ':'
  {
    var t := PATH_CLASS;
    ClassChar(t, 22, c);
    ClassRange(t, 19, c);
    ClassChar(t, 18, c);
    ClassChar(t, 17, c);
  }

  lemma PathClass(c: char)
    ensures InClass(PATH_CLASS, 0, c) <==> IsPath(c)
    ensures InClass(PATH_CLASS, 0, c) <==>
            'a' <= c <= 'z' || 'A' <= c <= 'Z' || '0' <= c <= '9' || c in "/.,*_:"
  {
    PathClassTail(c);
    ClassPrefix(PATH_CLASS, c);
  }

  lemma HyphenIsNotAccepted()
    ensures !InClass(PATH_CLASS, 0, '-')
  {
    PathClass('-');
  }
}
