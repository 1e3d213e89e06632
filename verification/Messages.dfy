/** Byte images of packed fixed-length structs, and the byte printer. */
module Messages {
  import opened Wire
  import opened Text
  import opened Queues

  /** The widths in bytes of the fields of a packed struct. */
  type Schema = seq<nat>

  ghost predicate WellTyped(schema: Schema, v: seq<nat>) {
    |v| == |schema| && forall i :: 0 <= i < |v| ==> v[i] < Pow256(schema[i])
  }

  function SizeOf(schema: Schema): nat {
    if schema == [] then 0 else schema[0] + SizeOf(schema[1..])
  }

  /** A field as `w` bytes, least significant first. */
  function Field(x: nat, w: nat): (m: Message)
    ensures |m| == w
  {
    if w == 0 then [] else [(x % 256) as byte] + Field(x / 256, w - 1)
  }

  function FieldValue(m: Message): (x: nat)
    ensures x < Pow256(|m|)
  {
    if m == [] then 0 else m[0] as nat + 256 * FieldValue(m[1..])
  }

  /** The object's memory: its fields one after the other, with no padding. */
  function Image(schema: Schema, v: seq<nat>): (m: Message)
    requires |v| == |schema|
    ensures |m| == SizeOf(schema)
  {
    if schema == [] then [] else Field(v[0], schema[0]) + Image(schema[1..], v[1..])
  }

  function Reading(schema: Schema, m: Message): (v: seq<nat>)
    requires |m| == SizeOf(schema)
    ensures |v| == |schema|
  {
    if schema == [] then []
    else [FieldValue(m[..schema[0]])] + Reading(schema[1..], m[schema[0]..])
  }

  /** pack<T>: a fresh buffer of sizeof(T) bytes, filled from the object. */
  method Pack(schema: Schema, v: seq<nat>) returns (m: Message)
    requires WellTyped(schema, v)
    ensures m == Image(schema, v) && |m| == SizeOf(schema)
  {
    var memory := Image(schema, v);
    var msg := new byte[|memory|](_ => 0);
    CopyInto(msg, memory);
    m := msg[..];
  }

  /** unpack<T>: a size other than sizeof(T) reads or writes outside the object. */
  method Unpack(schema: Schema, m: Message) returns (v: seq<nat>)
    requires |m| == SizeOf(schema)
    ensures v == Reading(schema, m) && WellTyped(schema, v)
  {
    var memory := new byte[|m|](_ => 0);
    CopyInto(memory, m);
    assert memory[..] == m;
    ReadingWellTyped(schema, m);
    v := Reading(schema, memory[..]);
  }

  lemma {:induction false} FieldRoundTrip(x: nat, w: nat)
    requires x < Pow256(w)
    ensures FieldValue(Field(x, w)) == x
  {
    if w > 0 {
      FieldRoundTrip(x / 256, w - 1);
      assert Field(x, w)[1..] == Field(x / 256, w - 1);
    }
  }

  lemma {:induction false} FieldImage(m: Message)
    ensures Field(FieldValue(m), |m|) == m
  {
    if m != [] {
      var x := FieldValue(m);
      FieldImage(m[1..]);
      assert x % 256 == m[0] as nat && x / 256 == FieldValue(m[1..]);
    }
  }

  lemma {:induction false} ReadingWellTyped(schema: Schema, m: Message)
    requires |m| == SizeOf(schema)
    ensures WellTyped(schema, Reading(schema, m))
  {
    if schema != [] {
      ReadingWellTyped(schema[1..], m[schema[0]..]);
      var v := Reading(schema, m);
      forall i | 0 <= i < |v| ensures v[i] < Pow256(schema[i]) {
        if i > 0 {
          assert v[i] == v[1..][i - 1] && schema[i] == schema[1..][i - 1];
        }
      }
    }
  }

  /** Unpacking the image of a well-typed value gives that value back. */
  lemma {:induction false} StructRoundTrip(schema: Schema, v: seq<nat>)
    requires WellTyped(schema, v)
    ensures Reading(schema, Image(schema, v)) == v
  {
    if schema != [] {
      var head, tail := Field(v[0], schema[0]), Image(schema[1..], v[1..]);
      assert (head + tail)[..schema[0]] == head && (head + tail)[schema[0]..] == tail;
      FieldRoundTrip(v[0], schema[0]);
      StructRoundTrip(schema[1..], v[1..]);
    }
  }

  /** Every message of the right size is the image of what is read from it. */
  lemma {:induction false} ImageRoundTrip(schema: Schema, m: Message)
    requires |m| == SizeOf(schema)
    ensures Image(schema, Reading(schema, m)) == m
  {
    if schema != [] {
      var v := Reading(schema, m);
      FieldImage(m[..schema[0]]);
      ImageRoundTrip(schema[1..], m[schema[0]..]);
      assert v[1..] == Reading(schema[1..], m[schema[0]..]);
      assert m == m[..schema[0]] + m[schema[0]..];
    }
  }

  function Items(msg: Message): string {
    if msg == [] then "]" else Decimal(msg[0] as nat) + "," + Items(msg[1..])
  }

  function Printed(msg: Message): string {
    if msg == [] then "" else "[" + Items(msg)
  }

  method Msg2String(msg: Message) returns (s: string)
    ensures s == Printed(msg)
  {
    s := "";
    if |msg| == 0 {
      return;
    }
    s := s + "[";
    for i := 0 to |msg|
      invariant s + Items(msg[i..]) == Printed(msg)
    {
      assert msg[i..][1..] == msg[i + 1..];
      s := s + Decimal(msg[i] as nat);
      s := s + ",";
    }
    s := s + "]";
  }

  /** Numerals below 256, without needless zeros and each closed by a comma, then a bracket as the last
      character. */
  function ParsedItems(s: string): Option<Message>
    decreases |s|
  {
    if s == "]" then Some([])
    else
      var e := Span(IsDigit, s, 0);
      if e == |s| || s[e] != ',' then None
      else
        match Octet(s[..e])
        case None => None
        case Some(v) =>
          match ParsedItems(s[e + 1..])
          case None => None
          case Some(m) => Some([v as byte] + m)
  }

  /** What a printed text stands for: nothing, or at least one numeral in brackets. Other texts are refused. */
  function Parsed(s: string): Option<Message> {
    if s == "" then Some([])
    else if s[0] != '[' || s[1..] == "]" then None
    else ParsedItems(s[1..])
  }

  lemma NumeralFirst(d: string, rest: string)
    requires AllDigits(d)
    ensures var s := d + "," + rest;
            Span(IsDigit, s, 0) == |d| && s[|d|] == ',' && s[..|d|] == d && s[|d| + 1..] == rest && s != "]"
  {
    var s := d + "," + rest;
    SpanIs(IsDigit, s, 0, |d|);
  }

  lemma ParseFirst(b: byte, rest: string)
    ensures ParsedItems(Decimal(b as nat) + "," + rest) ==
            match ParsedItems(rest) case None => None case Some(m) => Some([b] + m)
  {
    var d := Decimal(b as nat);
    DecimalValue(b as nat);
    OctetMeaning(d, b as nat);
    NumeralFirst(d, rest);
  }

  lemma {:induction false} ParseItems(msg: Message)
    ensures ParsedItems(Items(msg)) == Some(msg)
  {
    if msg != [] {
      ParseFirst(msg[0], Items(msg[1..]));
      ParseItems(msg[1..]);
      assert [msg[0]] + msg[1..] == msg;
    }
  }

  lemma ItemsFirst(b: byte, m: Message)
    ensures Items([b] + m) == Decimal(b as nat) + "," + Items(m)
  {
    assert ([b] + m)[1..] == m;
  }

  lemma ItemsParts(s: string, m: Message) returns (b: byte, rest: string, tail: Message)
    requires s != "]" && ParsedItems(s) == Some(m)
    ensures s == Decimal(b as nat) + "," + rest && ParsedItems(rest) == Some(tail) && m == [b] + tail
  {
    var e := Span(IsDigit, s, 0);
    OctetMeaning(s[..e], Octet(s[..e]).value);
    b, rest := Octet(s[..e]).value as byte, s[e + 1..];
    tail := ParsedItems(rest).value;
  }

  lemma {:induction false} ItemsOnly(s: string, m: Message)
    requires ParsedItems(s) == Some(m)
    ensures s == Items(m)
    decreases |s|
  {
    if s != "]" {
      var b, rest, tail := ItemsParts(s, m);
      ItemsOnly(rest, tail);
      ItemsFirst(b, tail);
    }
  }

  lemma NonEmptyItems(msg: Message)
    ensures msg != [] <==> Items(msg) != "]"
  {
    if msg != [] {
      DecimalValue(msg[0] as nat);
      assert Items(msg)[0] == Decimal(msg[0] as nat)[0];
    }
  }

  /** The printer loses nothing: the parser gives back every message of any length. */
  lemma PrintingLosesNothing(msg: Message)
    ensures Parsed(Printed(msg)) == Some(msg)
  {
    ParseItems(msg);
    NonEmptyItems(msg);
    if msg != [] {
      assert Printed(msg)[1..] == Items(msg);
    }
  }

  /** A text stands for a message exactly when it is printed for it. */
  lemma PrintedExactly(s: string, msg: Message)
    ensures Parsed(s) == Some(msg) <==> s == Printed(msg)
  {
    PrintingLosesNothing(msg);
    if Parsed(s) == Some(msg) && s != "" {
      ItemsOnly(s[1..], msg);
      NonEmptyItems(msg);
      assert s == "[" + s[1..];
    }
  }

  /** A message with bytes is printed in brackets, each byte followed by a comma. */
  lemma Brackets(msg: Message)
    requires msg != []
    ensures var s := Printed(msg);
            |s| >= 4 && s[0] == '[' && s[|s| - 2] == ',' && s[|s| - 1] == ']'
  {
    ItemsEnd(msg);
  }

  lemma {:induction false} ItemsEnd(msg: Message)
    ensures var s := Items(msg);
            s != "" && s[|s| - 1] == ']' && (msg != [] ==> |s| >= 3 && s[|s| - 2] == ',')
  {
    if msg != [] {
      ItemsEnd(msg[1..]);
      DecimalValue(msg[0] as nat);
      if msg[1..] == [] {
        assert Items(msg[1..]) == "]";
      }
    }
  }

  /** The printed text of two bytes. */
  lemma PrintedPair()
    ensures Printed([1, 2]) == "[1,2,]"
  {
    var one: Message, two: Message, none: Message := [1], [2], [];
    ItemsFirst(2, none);
    ItemsFirst(1, two);
    assert two + none == two && one + two == [1, 2];
    assert Decimal(1) == "1" && Decimal(2) == "2";
    assert "[" + ("1" + "," + ("2" + "," + "]")) == "[1,2,]";
  }

  lemma PrintingIsInjective(a: Message, b: Message)
    requires Printed(a) == Printed(b)
    ensures a == b
  {
    PrintingLosesNothing(a);
    PrintingLosesNothing(b);
  }

  // ---- where each byte is ----

  lemma MulOver(d: nat, a: nat, k: nat)
    ensures d * (a + 1 + k) == d * a + d + d * k
  {
  }

  lemma MulStep(d: nat, a: nat, b: nat)
    ensures a < b ==> d * a + d <= d * b
  {
    if a < b {
      MulOver(d, a, b - a - 1);
    }
  }

  lemma DivUnique(x: nat, d: nat, q: nat, r: nat)
    requires d > 0 && x == d * q + r && r < d
    ensures x / d == q
  {
    var y, s := x / d, x % d;
    assert x == d * y + s;
    MulStep(d, y, q);
    MulStep(d, q, y);
  }

  lemma DivTwice(x: nat, p: nat)
    requires p > 0
    ensures x / 256 / p == x / (256 * p)
  {
    var y := x / 256;
    var q, r := y / p, y % p;
    assert y == p * q + r;
    assert 256 * (p * q) == (256 * p) * q;
    DivUnique(x, 256 * p, q, 256 * r + x % 256);
  }

  /** Byte `i` of a field counts in steps of 256 to the power of `i`. */
  lemma {:induction false} FieldByte(x: nat, w: nat, i: nat)
    requires i < w
    ensures Field(x, w)[i] as nat == x / Pow256(i) % 256
  {
    if i > 0 {
      FieldByte(x / 256, w - 1, i - 1);
      DivTwice(x, Pow256(i - 1));
    }
  }

  /** Byte `j` of field `i` is in the image after all bytes of the fields before it. */
  lemma {:induction false} ImageByte(schema: Schema, v: seq<nat>, i: nat, j: nat)
    requires |v| == |schema| && i < |schema| && j < schema[i]
    ensures SizeOf(schema[..i]) + j < SizeOf(schema)
    ensures Image(schema, v)[SizeOf(schema[..i]) + j] as nat == v[i] / Pow256(j) % 256
  {
    if i == 0 {
      FieldByte(v[0], schema[0], j);
    } else {
      ImageByte(schema[1..], v[1..], i - 1, j);
      assert schema[..i][1..] == schema[1..][..i - 1];
    }
  }
}
