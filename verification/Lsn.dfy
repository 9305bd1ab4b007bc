/** Write-ahead-log positions as text. */
module Lsn {
  import opened Core

  const WORD: nat := 0x1_0000_0000

  function Digit(n: nat): (c: char)
    requires n < 16
    ensures c != '/' && c != '+'
  {
    if n < 10 then ('0' as int + n) as char else ('A' as int + n - 10) as char
  }

  /** Upper-case hexadecimal, at least `width` digits. */
  function Hex(n: nat, width: nat): (s: string)
    ensures |s| >= width && |s| >= 1
    decreases n, width
  {
    if n < 16 && width <= 1 then [Digit(n)]
    else Hex(n / 16, if width == 0 then 0 else width - 1) + [Digit(n % 16)]
  }

  /** `{:X}/{:08X}`: the high word unpadded, the low word padded to eight digits. */
  function Print(lsn: nat): string {
    Hex(lsn / WORD, 1) + "/" + Hex(lsn % WORD, 8)
  }

  /** How PostgreSQL prints a `pg_lsn`: neither word padded. */
  function PrintUnpadded(lsn: nat): string {
    Hex(lsn / WORD, 1) + "/" + Hex(lsn % WORD, 1)
  }

  function DigitValue(c: char): Option<nat> {
    if '0' <= c <= '9' then Some(c as int - '0' as int)
    else if 'A' <= c <= 'F' then Some(c as int - 'A' as int + 10)
    else if 'a' <= c <= 'f' then Some(c as int - 'a' as int + 10)
    else None
  }

  function Digits(s: string): Option<nat> {
    if s == "" then Some(0)
    else match Digits(s[..|s| - 1])
      case None => None
      case Some(high) =>
        match DigitValue(s[|s| - 1])
        case None => None
        case Some(d) => Some(high * 16 + d)
  }

  /** `u32::from_str_radix(_, 16)`: a plus sign is allowed, overflow is not. */
  function ParseWord(s: string): (r: Option<nat>)
    ensures r.Some? ==> r.value < WORD
  {
    var digits := if |s| > 1 && s[0] == '+' then s[1..] else s;
    if s == "" then None
    else match Digits(digits)
      case Some(n) => if n < WORD then Some(n) else None
      case None => None
  }

  function SplitOnce(s: string): Option<(string, string)> {
    if s == "" then None
    else if s[0] == '/' then Some(("", s[1..]))
    else match SplitOnce(s[1..])
      case None => None
      case Some((a, b)) => Some(([s[0]] + a, b))
  }

  function Parse(s: string): (r: Option<nat>)
    ensures r.Some? ==> r.value <= USIZE_MAX
  {
    match SplitOnce(s)
    case None => None
    case Some((high, low)) =>
      if high == "" || low == "" || |low| > 8 then None
      else if ParseWord(high).None? || ParseWord(low).None? then None
      else Some(ParseWord(high).value * WORD + ParseWord(low).value)
  }

  lemma DigitsAppend(s: string, d: nat)
    requires d < 16 && Digits(s).Some?
    ensures Digits(s + [Digit(d)]) == Some(Digits(s).value * 16 + d)
  {
    assert (s + [Digit(d)])[..|s|] == s;
  }

  lemma {:induction false} HexReadsBack(n: nat, width: nat)
    ensures Digits(Hex(n, width)) == Some(n)
    decreases n, width
  {
    if n < 16 && width <= 1 {
      DigitsAppend("", n);
      assert "" + [Digit(n)] == [Digit(n)];
    } else {
      HexReadsBack(n / 16, if width == 0 then 0 else width - 1);
      DigitsAppend(Hex(n / 16, if width == 0 then 0 else width - 1), n % 16);
      hide Digits;
    }
  }

  lemma {:induction false} HexIsPlain(n: nat, width: nat)
    ensures forall i | 0 <= i < |Hex(n, width)| :: Hex(n, width)[i] != '/' && Hex(n, width)[i] != '+'
    decreases n, width
  {
    hide Digit;
    if !(n < 16 && width <= 1) { HexIsPlain(n / 16, if width == 0 then 0 else width - 1); }
  }

  /** How many digits a number below `16^k` takes. */
  function Power16(k: nat): nat {
    if k == 0 then 1 else 16 * Power16(k - 1)
  }

  lemma {:induction false} HexLength(n: nat, width: nat, k: nat)
    requires 1 <= k && n < Power16(k) && width <= k
    ensures |Hex(n, width)| <= k
    decreases k
  {
    if !(n < 16 && width <= 1) {
      assert k > 1 by { assert Power16(1) == 16 * Power16(0); }
      HexLength(n / 16, if width == 0 then 0 else width - 1, k - 1);
    }
  }

  lemma {:induction false} SplitAtSlash(a: string, b: string)
    requires forall i | 0 <= i < |a| :: a[i] != '/'
    ensures SplitOnce(a + "/" + b) == Some((a, b))
  {
    var s := a + "/" + b;
    if a == "" {
      assert s == "/" + b && s[1..] == b;
    } else {
      assert s[1..] == a[1..] + "/" + b;
      SplitAtSlash(a[1..], b);
      assert s[0] == a[0] && [a[0]] + a[1..] == a;
    }
  }

  lemma WordReadsBack(n: nat, width: nat)
    requires n < WORD && width <= 8
    ensures ParseWord(Hex(n, width)) == Some(n) && 1 <= |Hex(n, width)| <= 8
  {
    HexReadsBack(n, width);
    HexIsPlain(n, width);
    assert Power16(8) == WORD by {
      assert Power16(1) == 16 && Power16(2) == 256 && Power16(3) == 4096 && Power16(4) == 65536;
      assert Power16(5) == 1048576 && Power16(6) == 16777216 && Power16(7) == 268435456;
    }
    HexLength(n, width, 8);
  }

  /** Two words printed around a slash split and read back. */
  lemma WordsReadBack(high: nat, low: nat, width: nat)
    requires high < WORD && low < WORD && width <= 8
    ensures SplitOnce(Hex(high, 1) + "/" + Hex(low, width)) == Some((Hex(high, 1), Hex(low, width)))
    ensures ParseWord(Hex(high, 1)) == Some(high) && ParseWord(Hex(low, width)) == Some(low)
    ensures Parse(Hex(high, 1) + "/" + Hex(low, width)) == Some(high * WORD + low)
  {
    WordReadsBack(high, 1);
    WordReadsBack(low, width);
    HexIsPlain(high, 1);
    SplitAtSlash(Hex(high, 1), Hex(low, width));
    hide Hex, SplitOnce, ParseWord;
  }

  /** Every 64-bit position reads back from either printed form, so printing loses nothing. */
  lemma PrintedReadsBack(lsn: nat)
    requires lsn <= USIZE_MAX
    ensures Parse(Print(lsn)) == Some(lsn) && Parse(PrintUnpadded(lsn)) == Some(lsn)
  {
    hide Hex, Parse, SplitOnce, ParseWord;
    WordsReadBack(lsn / WORD, lsn % WORD, 8);
    WordsReadBack(lsn / WORD, lsn % WORD, 1);
  }

  /** The two words of a position as its text shows them. */
  function PrintedWords(lsn: nat): Option<(nat, nat)> {
    match SplitOnce(Print(lsn))
    case None => None
    case Some((high, low)) =>
      if ParseWord(high).None? || ParseWord(low).None? then None else Some((ParseWord(high).value, ParseWord(low).value))
  }

  /** Comparing the printed words as numbers, high word first, compares the positions. */
  lemma PrintedOrder(a: nat, b: nat)
    requires a <= USIZE_MAX && b <= USIZE_MAX
    ensures PrintedWords(a).Some? && PrintedWords(b).Some?
    ensures var x, y := PrintedWords(a).value, PrintedWords(b).value;
      a < b <==> x.0 < y.0 || (x.0 == y.0 && x.1 < y.1)
  {
    hide Hex, SplitOnce, ParseWord;
    WordsReadBack(a / WORD, a % WORD, 8);
    WordsReadBack(b / WORD, b % WORD, 8);
  }

  // ---- What else is a position ----------------------------------------------------------------

  predicate IsHexDigit(c: char) {
    '0' <= c <= '9' || 'A' <= c <= 'F' || 'a' <= c <= 'f'
  }

  function DigitNumber(c: char): nat
    requires IsHexDigit(c)
  {
    if c <= '9' then c as int - '0' as int else if c <= 'F' then 10 + (c as int - 'A' as int) else 10 + (c as int - 'a' as int)
  }

  predicate IsHex(s: string) {
    forall i | 0 <= i < |s| :: IsHexDigit(s[i])
  }

  /** The number a string of hexadecimal digits stands for. */
  function HexValue(s: string): nat
    requires IsHex(s)
  {
    if s == "" then 0 else 16 * HexValue(s[..|s| - 1]) + DigitNumber(s[|s| - 1])
  }

  function WithoutPlus(s: string): string {
    if |s| > 1 && s[0] == '+' then s[1..] else s
  }

  /** A word of 32 bits in hexadecimal, of either case, after a plus sign or not. */
  predicate IsWord(s: string, n: nat) {
    s != "" && IsHex(WithoutPlus(s)) && HexValue(WithoutPlus(s)) == n && n < 0x1_0000_0000
  }

  lemma {:induction false} DigitsAre(s: string)
    ensures Digits(s).Some? <==> IsHex(s)
    ensures Digits(s).Some? ==> Digits(s).value == HexValue(s)
  {
    if s != "" {
      var init := s[..|s| - 1];
      DigitsAre(init);
      assert s == init + [s[|s| - 1]];
    }
  }

  lemma WordsAre(s: string, n: nat)
    ensures ParseWord(s) == Some(n) <==> IsWord(s, n)
  {
    DigitsAre(WithoutPlus(s));
    hide Digits, HexValue, IsHex;
  }

  lemma {:induction false} SplitsAre(s: string)
    ensures SplitOnce(s).None? <==> '/' !in s
    ensures SplitOnce(s).Some? ==> s == SplitOnce(s).value.0 + "/" + SplitOnce(s).value.1 && '/' !in SplitOnce(s).value.0
  {
    if s != "" && s[0] != '/' {
      SplitsAre(s[1..]);
      assert s == [s[0]] + s[1..];
    }
  }

  /** A text is read as a position if and only if it is two such words around its first slash, the second of
      at most eight characters. */
  lemma ParsedExactly(s: string, lsn: nat)
    ensures Parse(s) == Some(lsn) <==>
      exists a, b, high: nat, low: nat ::
        s == a + "/" + b && '/' !in a && |b| <= 8 && IsWord(a, high) && IsWord(b, low) && lsn == high * 0x1_0000_0000 + low
  {
    SplitsAre(s);
    hide SplitOnce, ParseWord, IsWord;
    if Parse(s) == Some(lsn) {
      var (a, b) := SplitOnce(s).value;
      WordsAre(a, ParseWord(a).value);
      WordsAre(b, ParseWord(b).value);
      assert s == a + "/" + b;
    }
    if a, b, high: nat, low: nat :| s == a + "/" + b && '/' !in a && |b| <= 8 && IsWord(a, high) && IsWord(b, low) && lsn == high * 0x1_0000_0000 + low {
      SplitAtSlash(a, b);
      WordsAre(a, high);
      WordsAre(b, low);
      NoEmptyWord(a, high);
      NoEmptyWord(b, low);
    }
  }

  lemma NoEmptyWord(s: string, n: nat)
    requires IsWord(s, n)
    ensures s != ""
  {
  }
}
