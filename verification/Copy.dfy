/** PostgreSQL COPY text encoding of staging rows, and the reader it is written for. */
module Copy {
  import opened Core
  import opened PrimaryKey

  const NUL: byte := 0
  const BACKSPACE: byte := 8
  const TAB: byte := 9
  const NEWLINE: byte := 10
  const VERTICAL_TAB: byte := 11
  const FORM_FEED: byte := 12
  const RETURN: byte := 13
  const ZERO: byte := 48
  const SEVEN: byte := 55
  const UPPER_N: byte := 78
  const BACKSLASH: byte := 92
  const LOWER_B: byte := 98
  const LOWER_F: byte := 102
  const LOWER_N: byte := 110
  const LOWER_R: byte := 114
  const LOWER_T: byte := 116
  const LOWER_V: byte := 118

  const NULL_MARKER: Bytes := [BACKSLASH, UPPER_N]

  datatype CopyEncodeError = EmptyRow | UnchangedField | BinaryField

  function Escape(b: byte): Bytes {
    if b == BACKSLASH then [BACKSLASH, BACKSLASH]
    else if b == TAB then [BACKSLASH, LOWER_T]
    else if b == NEWLINE then [BACKSLASH, LOWER_N]
    else if b == RETURN then [BACKSLASH, LOWER_R]
    else if b == BACKSPACE then [BACKSLASH, LOWER_B]
    else if b == FORM_FEED then [BACKSLASH, LOWER_F]
    else if b == VERTICAL_TAB then [BACKSLASH, LOWER_V]
    else if b == NUL then [BACKSLASH, ZERO, ZERO, ZERO]
    else [b]
  }

  function EscapeAll(value: Bytes): Bytes {
    if value == [] then [] else Escape(value[0]) + EscapeAll(value[1..])
  }

  function FieldBytes(cell: Cell): (r: Result<Bytes, CopyEncodeError>)
    ensures r.Ok? <==> cell.Null? || cell.Text?
  {
    match cell
    case Null => Ok(NULL_MARKER)
    case UnchangedToast => Err(UnchangedField)
    case Binary(_) => Err(BinaryField)
    case Text(value) => Ok(EscapeAll(value))
  }

  predicate Encodable(cells: Tuple) {
    forall i | 0 <= i < |cells| :: cells[i].Null? || cells[i].Text?
  }

  /** Fields from `cells[i]` on, each closed by a tab, the last by a newline. */
  function RowBytesFrom(cells: Tuple): Result<Bytes, CopyEncodeError>
    requires cells != []
    ensures RowBytesFrom(cells).Ok? <==> Encodable(cells)
  {
    match FieldBytes(cells[0])
    case Err(e) => Err(e)
    case Ok(field) =>
      if |cells| == 1 then Ok(field + [NEWLINE])
      else match RowBytesFrom(cells[1..])
        case Err(e) => Err(e)
        case Ok(rest) => Ok(field + [TAB] + rest)
  }

  // ---- The encoder ----------------------------------------------------------------------------

  method EncodeTextBytes(value: Bytes, output: Bytes) returns (extended: Bytes)
    ensures extended == output + EscapeAll(value)
  {
    extended := output;
    var i := 0;
    while i < |value|
      invariant i <= |value| && extended + EscapeAll(value[i..]) == output + EscapeAll(value)
    {
      assert extended + (Escape(value[i]) + EscapeAll(value[i + 1..])) == extended + Escape(value[i]) + EscapeAll(value[i + 1..]);
      assert value[i..][1..] == value[i + 1..];
      extended := extended + Escape(value[i]);
      i := i + 1;
    }
  }

  method EncodeFieldInto(cell: Cell, output: Bytes) returns (extended: Result<Bytes, CopyEncodeError>)
    ensures extended == match FieldBytes(cell) case Ok(field) => Ok(output + field) case Err(e) => Err(e)
  {
    match cell
    case Null => return Ok(output + NULL_MARKER);
    case UnchangedToast => return Err(UnchangedField);
    case Binary(_) => return Err(BinaryField);
    case Text(value) =>
      var bytes := EncodeTextBytes(value, output);
      return Ok(bytes);
  }

  function After(output: Bytes, rest: Result<Bytes, CopyEncodeError>): Result<Bytes, CopyEncodeError> {
    match rest case Ok(bytes) => Ok(output + bytes) case Err(e) => Err(e)
  }

  /** What follows the fields before `cells[i]`. */
  function Tail(cells: Tuple, i: nat): Result<Bytes, CopyEncodeError>
    requires i <= |cells|
  {
    if i == |cells| then Ok([NEWLINE]) else After([TAB], RowBytesFrom(cells[i..]))
  }

  lemma TailStep(cells: Tuple, i: nat, output: Bytes)
    requires i < |cells|
    ensures FieldBytes(cells[i]).Err? ==> After(output, Tail(cells, i)) == Err(FieldBytes(cells[i]).error)
    ensures FieldBytes(cells[i]).Ok? ==>
      After(output, Tail(cells, i)) == After(output + [TAB] + FieldBytes(cells[i]).value, Tail(cells, i + 1))
  {
    assert cells[i..][0] == cells[i] && cells[i..][1..] == cells[i + 1..];
    if FieldBytes(cells[i]).Ok? && Tail(cells, i + 1).Ok? {
      var f, rest := FieldBytes(cells[i]).value, Tail(cells, i + 1).value;
      assert After([TAB], RowBytesFrom(cells[i..])) == Ok([TAB] + (f + rest)) by {
        if i + 1 < |cells| {
          var r := RowBytesFrom(cells[i + 1..]).value;
          assert f + [TAB] + r == f + ([TAB] + r);
        }
      }
      assert output + ([TAB] + (f + rest)) == output + [TAB] + f + rest;
    }
  }

  lemma RowIsFirstThenTail(cells: Tuple)
    requires cells != []
    ensures RowBytesFrom(cells) == match FieldBytes(cells[0]) case Ok(f) => After(f, Tail(cells, 1)) case Err(e) => Err(e)
  {
    if FieldBytes(cells[0]).Ok? && |cells| > 1 && RowBytesFrom(cells[1..]).Ok? {
      var f, r := FieldBytes(cells[0]).value, RowBytesFrom(cells[1..]).value;
      assert f + [TAB] + r == f + ([TAB] + r);
    }
  }

  method EncodeRow(cells: Tuple) returns (row: Result<Bytes, CopyEncodeError>)
    ensures row == if cells == [] then Err(EmptyRow) else RowBytesFrom(cells)
  {
    if cells == [] { return Err(EmptyRow); }
    RowIsFirstThenTail(cells);
    var first := EncodeFieldInto(cells[0], []);
    if first.Err? { return Err(first.error); }
    var output := first.value;
    assert output == FieldBytes(cells[0]).value;
    hide RowBytesFrom, FieldBytes, After, Tail;
    var i := 1;
    while i < |cells|
      invariant 1 <= i <= |cells|
      invariant RowBytesFrom(cells) == After(output, Tail(cells, i))
    {
      TailStep(cells, i, output);
      var field := EncodeFieldInto(cells[i], output + [TAB]);
      if field.Err? { return Err(field.error); }
      output := field.value;
      i := i + 1;
    }
    TailEnds(cells, output);
    return Ok(output + [NEWLINE]);
  }

  lemma TailEnds(cells: Tuple, output: Bytes)
    ensures After(output, Tail(cells, |cells|)) == Ok(output + [NEWLINE])
  {
  }

  // ---- The reader: COPY, section "Text Format" ------------------------------------------------

  datatype RawField = RawField(raw: Bytes, terminator: byte, rest: Bytes)

  /** Scans one raw field; a backslash shields the byte after it. */
  function NextField(s: Bytes): Option<RawField>
    ensures NextField(s).Some? ==> |NextField(s).value.rest| < |s|
  {
    if s == [] then None
    else if s[0] == TAB || s[0] == NEWLINE then Some(RawField([], s[0], s[1..]))
    else
      var n := if s[0] == BACKSLASH && |s| > 1 then 2 else 1;
      match NextField(s[n..])
      case None => None
      case Some(f) => Some(f.(raw := s[..n] + f.raw))
  }

  /** The raw fields of one line, and what follows the line. */
  function ReadLine(s: Bytes): Option<(seq<Bytes>, Bytes)>
    decreases |s|
  {
    match NextField(s)
    case None => None
    case Some(f) =>
      if f.terminator == NEWLINE then Some(([f.raw], f.rest))
      else match ReadLine(f.rest)
        case None => None
        case Some((fields, rest)) => Some(([f.raw] + fields, rest))
  }

  predicate OctalDigit(b: byte) {
    ZERO <= b <= SEVEN
  }

  /** How many octal digits, at most three, follow. */
  function OctalLength(s: Bytes): (n: nat)
    ensures n <= 3 && n <= |s|
  {
    if |s| == 0 || !OctalDigit(s[0]) then 0
    else if |s| == 1 || !OctalDigit(s[1]) then 1
    else if |s| == 2 || !OctalDigit(s[2]) then 2
    else 3
  }

  function OctalValue(s: Bytes): int {
    if s == [] then 0 else OctalValue(s[..|s| - 1]) * 8 + (s[|s| - 1] as int - ZERO as int)
  }

  function HexValue(b: byte): Option<int> {
    if ZERO <= b <= 57 then Some(b as int - 48)
    else if 65 <= b <= 70 then Some(b as int - 55)
    else if 97 <= b <= 102 then Some(b as int - 87)
    else None
  }

  /** The byte a backslash sequence stands for and how many bytes follow the backslash. */
  function Unescape(s: Bytes): (r: (byte, nat))
    requires s != []
    ensures 1 <= r.1 <= |s|
  {
    if OctalLength(s) > 0 then ((OctalValue(s[..OctalLength(s)]) % 256) as byte, OctalLength(s))
    else if s[0] == 120 && |s| > 1 && HexValue(s[1]).Some? then
      if |s| > 2 && HexValue(s[2]).Some?
      then (((HexValue(s[1]).value * 16 + HexValue(s[2]).value) % 256) as byte, 3)
      else ((HexValue(s[1]).value % 256) as byte, 2)
    else if s[0] == LOWER_B then (BACKSPACE, 1)
    else if s[0] == LOWER_F then (FORM_FEED, 1)
    else if s[0] == LOWER_N then (NEWLINE, 1)
    else if s[0] == LOWER_R then (RETURN, 1)
    else if s[0] == LOWER_T then (TAB, 1)
    else if s[0] == LOWER_V then (VERTICAL_TAB, 1)
    else (s[0], 1)
  }

  function UnescapeAll(raw: Bytes): Bytes {
    if raw == [] then []
    else if raw[0] == BACKSLASH && |raw| > 1 then
      [Unescape(raw[1..]).0] + UnescapeAll(raw[1 + Unescape(raw[1..]).1..])
    else [raw[0]] + UnescapeAll(raw[1..])
  }

  /** The NULL marker is compared before escapes are interpreted. */
  function CellOfRaw(raw: Bytes): Cell {
    if raw == NULL_MARKER then Null else Text(UnescapeAll(raw))
  }

  function CellsOfRaw(fields: seq<Bytes>): (r: Tuple)
    ensures |r| == |fields|
  {
    seq(|fields|, i requires 0 <= i < |fields| => CellOfRaw(fields[i]))
  }

  /** Reads one row and what follows it. */
  function ReadRow(s: Bytes): Option<(Tuple, Bytes)> {
    match ReadLine(s)
    case None => None
    case Some((fields, rest)) => Some((CellsOfRaw(fields), rest))
  }

  // ---- Reading back what was written ----------------------------------------------------------

  lemma UnescapeFirst(b: byte, rest: Bytes)
    ensures UnescapeAll(Escape(b) + rest) == [b] + UnescapeAll(rest)
  {
    var e := Escape(b);
    var s := e + rest;
    if b == NUL {
      assert s[1..] == [ZERO, ZERO, ZERO] + rest;
      assert s[1..][..3] == [ZERO, ZERO, ZERO];
      assert [ZERO, ZERO, ZERO][..2] == [ZERO, ZERO] && [ZERO, ZERO][..1] == [ZERO] && [ZERO][..0] == [];
      assert OctalValue([ZERO]) == 0 && OctalValue([ZERO, ZERO]) == 0 && OctalValue([ZERO, ZERO, ZERO]) == 0;
      assert s[4..] == rest;
    } else if |e| == 2 {
      assert s[1..] == [e[1]] + rest && s[2..] == rest;
      assert !OctalDigit(e[1]);
    } else {
      assert e == [b] && s[1..] == rest;
    }
  }

  lemma {:induction false} UnescapeInverts(value: Bytes)
    ensures UnescapeAll(EscapeAll(value)) == value
  {
    if value != [] {
      UnescapeFirst(value[0], EscapeAll(value[1..]));
      UnescapeInverts(value[1..]);
    }
  }

  lemma EscapedIsNotNull(value: Bytes)
    ensures EscapeAll(value) != NULL_MARKER
  {
    if value != [] {
      var e, s := Escape(value[0]), EscapeAll(value);
      assert s[0] == e[0] && NULL_MARKER[0] == BACKSLASH && NULL_MARKER[1] == UPPER_N;
      if |e| > 1 { assert s[1] == e[1] != UPPER_N; }
    }
  }

  lemma ScanPlain(b: byte, rest: Bytes)
    requires b != TAB && b != NEWLINE && b != BACKSLASH && NextField(rest).Some?
    ensures NextField([b] + rest) == Some(NextField(rest).value.(raw := [b] + NextField(rest).value.raw))
  {
    var s := [b] + rest;
    assert s[1..] == rest && s[..1] == [b];
  }

  lemma ScanShielded(b: byte, rest: Bytes)
    requires NextField(rest).Some?
    ensures NextField([BACKSLASH, b] + rest) == Some(NextField(rest).value.(raw := [BACKSLASH, b] + NextField(rest).value.raw))
  {
    var s := [BACKSLASH, b] + rest;
    assert s[2..] == rest && s[..2] == [BACKSLASH, b];
  }

  lemma ScanNul(rest: Bytes)
    requires NextField(rest).Some?
    ensures NextField([BACKSLASH, ZERO, ZERO, ZERO] + rest) ==
            Some(NextField(rest).value.(raw := [BACKSLASH, ZERO, ZERO, ZERO] + NextField(rest).value.raw))
  {
    hide NextField;
    var one := [ZERO] + rest;
    var two := [ZERO] + one;
    ScanPlain(ZERO, rest);
    ScanPlain(ZERO, one);
    ScanShielded(ZERO, two);
    assert [BACKSLASH, ZERO, ZERO, ZERO] + rest == [BACKSLASH, ZERO] + two;
    var raw := NextField(rest).value.raw;
    assert [BACKSLASH, ZERO] + ([ZERO] + ([ZERO] + raw)) == [BACKSLASH, ZERO, ZERO, ZERO] + raw;
  }

  lemma ScanEscape(b: byte, rest: Bytes)
    requires NextField(rest).Some?
    ensures NextField(Escape(b) + rest) == Some(NextField(rest).value.(raw := Escape(b) + NextField(rest).value.raw))
  {
    hide NextField;
    if b == NUL {
      ScanNul(rest);
    } else if |Escape(b)| == 2 {
      ScanShielded(Escape(b)[1], rest);
    } else {
      ScanPlain(b, rest);
    }
  }

  lemma {:induction false} ScanEscaped(value: Bytes, terminator: byte, rest: Bytes)
    requires terminator == TAB || terminator == NEWLINE
    ensures NextField(EscapeAll(value) + [terminator] + rest) == Some(RawField(EscapeAll(value), terminator, rest))
  {
    if value == [] {
      assert EscapeAll(value) + [terminator] + rest == [terminator] + rest;
    } else {
      ScanEscaped(value[1..], terminator, rest);
      var tail := EscapeAll(value[1..]) + [terminator] + rest;
      assert EscapeAll(value) + [terminator] + rest == Escape(value[0]) + tail;
      ScanEscape(value[0], tail);
    }
  }

  lemma FieldReadsBack(cell: Cell, terminator: byte, rest: Bytes)
    requires cell.Null? || cell.Text?
    requires terminator == TAB || terminator == NEWLINE
    ensures NextField(FieldBytes(cell).value + [terminator] + rest) == Some(RawField(FieldBytes(cell).value, terminator, rest))
    ensures CellOfRaw(FieldBytes(cell).value) == cell
  {
    match cell
    case Null =>
      var s := NULL_MARKER + [terminator] + rest;
      assert s[2..] == [terminator] + rest && s[..2] == NULL_MARKER;
      assert ([terminator] + rest)[1..] == rest;
      assert NextField([terminator] + rest) == Some(RawField([], terminator, rest));
      assert NULL_MARKER + [] == NULL_MARKER;
    case Text(value) =>
      ScanEscaped(value, terminator, rest);
      UnescapeInverts(value);
      EscapedIsNotNull(value);
  }

  function FieldsOf(cells: Tuple): (r: seq<Bytes>)
    requires Encodable(cells)
    ensures |r| == |cells|
  {
    seq(|cells|, i requires 0 <= i < |cells| => FieldBytes(cells[i]).value)
  }

  lemma ReadLineCons(field: Bytes, more: Bytes)
    requires NextField(field + [TAB] + more) == Some(RawField(field, TAB, more)) && ReadLine(more).Some?
    ensures ReadLine(field + [TAB] + more) == Some(([field] + ReadLine(more).value.0, ReadLine(more).value.1))
  {
    hide NextField;
  }

  lemma {:induction false} LineReadsBack(cells: Tuple, rest: Bytes)
    requires cells != [] && Encodable(cells)
    ensures ReadLine(RowBytesFrom(cells).value + rest) == Some((FieldsOf(cells), rest))
    decreases |cells|
  {
    hide NextField, FieldBytes;
    if |cells| == 1 {
      FieldReadsBack(cells[0], NEWLINE, rest);
      assert FieldsOf(cells) == [FieldBytes(cells[0]).value];
    } else {
      hide ReadLine;
      var field, tail := FieldBytes(cells[0]).value, RowBytesFrom(cells[1..]).value;
      FieldReadsBack(cells[0], TAB, tail + rest);
      LineReadsBack(cells[1..], rest);
      ReadLineCons(field, tail + rest);
      RowSplits(cells, rest);
      assert FieldsOf(cells) == [field] + FieldsOf(cells[1..]);
    }
  }

  lemma RowSplits(cells: Tuple, rest: Bytes)
    requires |cells| > 1 && Encodable(cells)
    ensures RowBytesFrom(cells).value + rest == FieldBytes(cells[0]).value + [TAB] + (RowBytesFrom(cells[1..]).value + rest)
  {
    hide FieldBytes;
  }

  /** Whatever bytes the cells hold, reading an encoded row gives the cells back, and stops exactly at
      its end, so rows sent one after another stay apart. */
  lemma RowReadsBack(cells: Tuple, rest: Bytes)
    requires cells != [] && Encodable(cells)
    ensures ReadRow(RowBytesFrom(cells).value + rest) == Some((cells, rest))
  {
    LineReadsBack(cells, rest);
    hide ReadLine, RowBytesFrom;
    forall i | 0 <= i < |cells| ensures CellsOfRaw(FieldsOf(cells))[i] == cells[i] {
      FieldReadsBack(cells[i], TAB, []);
    }
    assert CellsOfRaw(FieldsOf(cells)) == cells;
  }

}
