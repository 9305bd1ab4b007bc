/** Numbers printed into identifiers, and identifiers cut to what the database takes. */
module PrintedNames {
  import opened Core
  import opened Framing

  const UNDERSCORE: byte := 95

  const IDENTIFIER_MAX: nat := 63

  /** What stays of a long identifier in front of its digest, which is 24 digits long. */
  const KEPT: nat := IDENTIFIER_MAX - 1 - 24

  function Decimal(n: nat): (r: Bytes)
    ensures r != [] && UNDERSCORE !in r && (n < 10 ==> |r| == 1)
  {
    (if n < 10 then [] else Decimal(n / 10)) + [(48 + n % 10) as byte]
  }

  lemma {:induction false} DecimalInjective(a: nat, b: nat)
    requires Decimal(a) == Decimal(b)
    ensures a == b
    decreases a
  {
    var x, y := if a < 10 then [] else Decimal(a / 10), if b < 10 then [] else Decimal(b / 10);
    var d, e := (48 + a % 10) as byte, (48 + b % 10) as byte;
    assert Decimal(a) == x + [d] && Decimal(b) == y + [e];
    assert (x + [d])[..|x|] == x && (x + [d])[|x|] == d;
    assert (y + [e])[..|y|] == y && (y + [e])[|y|] == e;
    if a >= 10 && b >= 10 { DecimalInjective(a / 10, b / 10); }
  }

  /** One lower-case hexadecimal digit. */
  function HexDigit(n: nat): byte
    requires n < 16
  {
    if n < 10 then (48 + n) as byte else (87 + n) as byte
  }

  function Hexadecimal(bytes: Bytes): (r: Bytes)
    ensures |r| == 2 * |bytes|
  {
    if bytes == [] then []
    else [HexDigit(bytes[0] as nat / 16), HexDigit(bytes[0] as nat % 16)] + Hexadecimal(bytes[1..])
  }

  lemma {:induction false} HexadecimalInjective(a: Bytes, b: Bytes)
    requires Hexadecimal(a) == Hexadecimal(b)
    ensures a == b
  {
    if a != [] && b != [] {
      SamePrefix([HexDigit(a[0] as nat / 16), HexDigit(a[0] as nat % 16)], [HexDigit(b[0] as nat / 16), HexDigit(b[0] as nat % 16)],
                 Hexadecimal(a[1..]), Hexadecimal(b[1..]));
      assert [HexDigit(a[0] as nat / 16), HexDigit(a[0] as nat % 16)][1] == [HexDigit(b[0] as nat / 16), HexDigit(b[0] as nat % 16)][1];
      HexadecimalInjective(a[1..], b[1..]);
      assert a == [a[0]] + a[1..] && b == [b[0]] + b[1..];
    }
  }

  /** Identifiers over the limit keep a prefix and end in a digest of the whole. */
  function Shortened(value: Bytes): (r: Bytes)
    ensures forall p: Bytes | |p| <= KEPT && p <= value :: p <= r
  {
    if |value| <= IDENTIFIER_MAX then value else value[..KEPT] + ([UNDERSCORE] + value)
  }

  lemma ShortenedInjective(a: Bytes, b: Bytes)
    requires Shortened(a) == Shortened(b)
    ensures a == b
  {
    if |a| > IDENTIFIER_MAX && |b| > IDENTIFIER_MAX {
      SamePrefix(a[..KEPT], b[..KEPT], [UNDERSCORE] + a, [UNDERSCORE] + b);
      SamePrefix([UNDERSCORE], [UNDERSCORE], a, b);
    }
  }

  /** A part without an underscore ends at the first one. */
  lemma SplitAtUnderscore(a: Bytes, b: Bytes, x: Bytes, y: Bytes)
    requires UNDERSCORE !in a && UNDERSCORE !in b && a + ([UNDERSCORE] + x) == b + ([UNDERSCORE] + y)
    ensures a == b && x == y
  {
    FirstUnderscore(a, x);
    FirstUnderscore(b, y);
    SamePrefix(a, b, [UNDERSCORE] + x, [UNDERSCORE] + y);
    SamePrefix([UNDERSCORE], [UNDERSCORE], x, y);
  }

  lemma FirstUnderscore(a: Bytes, x: Bytes)
    requires UNDERSCORE !in a
    ensures var s := a + ([UNDERSCORE] + x); |a| < |s| && s[|a|] == UNDERSCORE && forall i | 0 <= i < |a| :: s[i] != UNDERSCORE
  {
    var s := a + ([UNDERSCORE] + x);
    assert forall i | 0 <= i < |a| :: s[i] == a[i];
  }
}
