/** Character runs and decimal numerals, shared by the address parser and the printers. */
module Text {
  import opened Wire

  predicate IsDigit(c: char) { '0' <= c <= '9' }

  predicate AllDigits(s: string) { forall i :: 0 <= i < |s| ==> IsDigit(s[i]) }

  /** The end of the longest run of `p` characters that starts at `i`. */
  function Span(p: char -> bool, s: string, i: nat): (e: nat)
    requires i <= |s|
    ensures i <= e <= |s|
    ensures forall j :: i <= j < e ==> p(s[j])
    ensures e < |s| ==> !p(s[e])
    decreases |s| - i
  {
    if i < |s| && p(s[i]) then Span(p, s, i + 1) else i
  }

  lemma {:induction false} SpanIs(p: char -> bool, s: string, i: nat, e: nat)
    requires i <= e <= |s|
    requires forall j :: i <= j < e ==> p(s[j])
    requires e < |s| ==> !p(s[e])
    ensures Span(p, s, i) == e
    decreases e - i
  {
  }

  /** std::to_string of a non-negative integer. */
  function Decimal(n: nat): string {
    if n < 10 then [Digit(n)] else Decimal(n / 10) + [Digit(n % 10)]
  }

  function Digit(d: nat): char
    requires d < 10
  {
    '0' + d as char
  }

  function Value(s: string): nat
    requires AllDigits(s)
  {
    if s == "" then 0 else 10 * Value(s[..|s| - 1]) + (s[|s| - 1] - '0') as nat
  }

  lemma {:induction false} DecimalValue(n: nat)
    ensures Decimal(n) != "" && AllDigits(Decimal(n))
    ensures Value(Decimal(n)) == n
    ensures n > 0 ==> Decimal(n)[0] != '0'
    ensures n < 10 <==> |Decimal(n)| == 1
    ensures n < 1000 ==> |Decimal(n)| <= 3
  {
    var s := Decimal(n);
    if n < 10 {
      assert s[..|s| - 1] == "";
      assert Value(s[..|s| - 1]) == 0;
    } else {
      DecimalValue(n / 10);
      assert s[..|s| - 1] == Decimal(n / 10);
      if n < 1000 {
        DecimalLength2(n / 10);
      }
    }
  }

  lemma DecimalLength2(n: nat)
    requires n < 100
    ensures |Decimal(n)| <= 2
  {
  }

  /** A numeral below 256 without needless zeros in front (in an address those would make it octal). */
  function Octet(s: string): Option<nat> {
    if s != "" && AllDigits(s) && |s| <= 3 && (|s| == 1 || s[0] != '0') && Value(s) < 256 then Some(Value(s))
    else None
  }

  /** A numeral without needless zeros is the one that is printed. */
  lemma {:induction false} DecimalOfValue(s: string)
    requires s != "" && AllDigits(s) && (|s| == 1 || s[0] != '0')
    ensures Decimal(Value(s)) == s
    ensures s[0] != '0' ==> Value(s) > 0
  {
    var init, d := s[..|s| - 1], (s[|s| - 1] - '0') as nat;
    assert s == init + [Digit(d)];
    if init == "" {
      assert Value(init) == 0;
    } else {
      DecimalOfValue(init);
      assert Value(s) / 10 == Value(init) && Value(s) % 10 == d;
    }
  }

  /** The octets are exactly the printed numbers below 256. */
  lemma OctetMeaning(s: string, v: nat)
    ensures Octet(s) == Some(v) <==> v < 256 && s == Decimal(v)
  {
    if Octet(s) == Some(v) {
      DecimalOfValue(s);
    }
    DecimalValue(v);
  }
}
