/** The byte framing that is fed to SHA-256. The hash itself stands for the bytes it is given. */
module Framing {
  import opened Core
  import opened PrimaryKey

  /** How many numbers `width` bytes hold. */
  function Range(width: nat): nat {
    if width == 0 then 1 else 256 * Range(width - 1)
  }

  /** `to_be_bytes` at a given width; higher bytes are cut off. */
  function BigEndian(n: nat, width: nat): (r: Bytes)
    ensures |r| == width
  {
    if width == 0 then [] else BigEndian(n / 256, width - 1) + [(n % 256) as byte]
  }

  lemma {:induction false} BigEndianInjective(a: nat, b: nat, width: nat)
    requires a < Range(width) && b < Range(width) && BigEndian(a, width) == BigEndian(b, width)
    ensures a == b
  {
    if width > 0 {
      var x, y := BigEndian(a / 256, width - 1), BigEndian(b / 256, width - 1);
      assert (x + [(a % 256) as byte])[..width - 1] == x && (y + [(b % 256) as byte])[..width - 1] == y;
      assert (x + [(a % 256) as byte])[width - 1] == (a % 256) as byte && (y + [(b % 256) as byte])[width - 1] == (b % 256) as byte;
      BigEndianInjective(a / 256, b / 256, width - 1);
    }
  }

  lemma RangeOf8()
    ensures Range(4) == 0x1_0000_0000 && Range(8) == USIZE_MAX + 1
  {
    assert Range(1) == 256 && Range(2) == 65536 && Range(3) == 16777216;
    assert Range(5) == 256 * Range(4) && Range(6) == 256 * Range(5) && Range(7) == 256 * Range(6) && Range(8) == 256 * Range(7);
  }

  /** A byte string behind its 64-bit length. */
  function Field(value: Bytes): Bytes {
    BigEndian(|value|, 8) + value
  }

  lemma SamePrefix<T>(a: seq<T>, b: seq<T>, x: seq<T>, y: seq<T>)
    requires a + x == b + y && |a| == |b|
    ensures a == b && x == y
  {
    assert (a + x)[..|a|] == a && (b + y)[..|b|] == b;
    assert (a + x)[|a|..] == x && (b + y)[|b|..] == y;
  }

  /** A framed value and what follows it are determined by the bytes. */
  lemma FieldPrefix(a: Bytes, b: Bytes, x: Bytes, y: Bytes)
    requires |a| <= USIZE_MAX && |b| <= USIZE_MAX && Field(a) + x == Field(b) + y
    ensures a == b && x == y
  {
    assert BigEndian(|a|, 8) + (a + x) == Field(a) + x;
    assert BigEndian(|b|, 8) + (b + y) == Field(b) + y;
    SamePrefix(BigEndian(|a|, 8), BigEndian(|b|, 8), a + x, b + y);
    RangeOf8();
    BigEndianInjective(|a|, |b|, 8);
    SamePrefix(a, b, x, y);
  }

  // ---- Reconciliation chunks ------------------------------------------------------------------

  datatype CanonicalRow = CanonicalRow(key: seq<Bytes>, values: Tuple)

  datatype DigestError = UnchangedValue

  function Tagged(tag: byte, value: Bytes): Bytes {
    [tag] + Field(value)
  }

  function KeyBytes(key: seq<Bytes>): Bytes {
    if key == [] then [] else Tagged(1, key[0]) + KeyBytes(key[1..])
  }

  function ValueBytes(cell: Cell): Result<Bytes, DigestError> {
    match cell
    case Null => Ok([0])
    case Text(value) => Ok(Tagged(2, value))
    case Binary(value) => Ok(Tagged(3, value))
    case UnchangedToast => Err(UnchangedValue)
  }

  function ValuesBytes(values: Tuple): Result<Bytes, DigestError> {
    if values == [] then Ok([])
    else match ValueBytes(values[0])
      case Err(e) => Err(e)
      case Ok(first) =>
        match ValuesBytes(values[1..])
        case Err(e) => Err(e)
        case Ok(rest) => Ok(first + rest)
  }

  function RowFrame(row: CanonicalRow): Result<Bytes, DigestError> {
    match ValuesBytes(row.values)
    case Err(e) => Err(e)
    case Ok(values) => Ok(BigEndian(|row.key|, 8) + KeyBytes(row.key) + BigEndian(|row.values|, 8) + values)
  }

  /** Everything a chunk's digest is computed from. */
  function ChunkBytes(rows: seq<CanonicalRow>): Result<Bytes, DigestError> {
    if rows == [] then Ok([])
    else match RowFrame(rows[0])
      case Err(e) => Err(e)
      case Ok(first) =>
        match ChunkBytes(rows[1..])
        case Err(e) => Err(e)
        case Ok(rest) => Ok(first + rest)
  }

  function Then(fed: Bytes, rest: Result<Bytes, DigestError>): Result<Bytes, DigestError> {
    match rest case Ok(bytes) => Ok(fed + bytes) case Err(e) => Err(e)
  }

  /** The digest loop: nested loops over rows, keys and values, feeding a growing input. */
  method DigestRows(rows: seq<CanonicalRow>) returns (input: Result<Bytes, DigestError>)
    ensures input == ChunkBytes(rows)
  {
    var fed: Bytes := [];
    FedNothing(ChunkBytes(rows), []);
    var i := 0;
    while i < |rows|
      invariant i <= |rows| && ChunkBytes(rows) == Then(fed, ChunkBytes(rows[i..]))
    {
      assert rows[i..][0] == rows[i] && rows[i..][1..] == rows[i + 1..];
      var row := FeedRow(fed, rows[i]);
      FedRow(fed, rows[i], ChunkBytes(rows[i + 1..]));
      if row.Err? { return row; }
      fed := row.value;
      i := i + 1;
    }
    FedNothing(Ok([]), fed);
    return Ok(fed);
  }

  lemma FedNothing(rest: Result<Bytes, DigestError>, fed: Bytes)
    ensures Then([], rest) == rest && Then(fed, Ok([])) == Ok(fed)
  {
    if rest.Ok? { assert [] + rest.value == rest.value; }
    assert fed + [] == fed;
  }

  lemma FedRow(fed: Bytes, row: CanonicalRow, rest: Result<Bytes, DigestError>)
    ensures RowFrame(row).Ok? ==>
      Then(fed, match rest case Ok(bytes) => Ok(RowFrame(row).value + bytes) case Err(e) => Err(e)) == Then(fed + RowFrame(row).value, rest)
  {
    if RowFrame(row).Ok? && rest.Ok? { assert fed + (RowFrame(row).value + rest.value) == fed + RowFrame(row).value + rest.value; }
  }

  method FeedKey(fed: Bytes, key: seq<Bytes>) returns (input: Bytes)
    ensures input == fed + KeyBytes(key)
  {
    hide Tagged;
    input := fed;
    var k := 0;
    while k < |key|
      invariant k <= |key| && input + KeyBytes(key[k..]) == fed + KeyBytes(key)
    {
      assert key[k..][0] == key[k] && key[k..][1..] == key[k + 1..];
      assert input + (Tagged(1, key[k]) + KeyBytes(key[k + 1..])) == input + Tagged(1, key[k]) + KeyBytes(key[k + 1..]);
      input := input + Tagged(1, key[k]);
      k := k + 1;
    }
  }

  method FeedValues(fed: Bytes, values: Tuple) returns (input: Result<Bytes, DigestError>)
    ensures input == Then(fed, ValuesBytes(values))
  {
    hide ValueBytes;
    var bytes := fed;
    var v := 0;
    while v < |values|
      invariant v <= |values| && Then(fed, ValuesBytes(values)) == Then(bytes, ValuesBytes(values[v..]))
    {
      assert values[v..][0] == values[v] && values[v..][1..] == values[v + 1..];
      var value := ValueBytes(values[v]);
      if value.Err? { return Err(value.error); }
      ghost var rest := ValuesBytes(values[v + 1..]);
      if rest.Ok? { assert bytes + (value.value + rest.value) == bytes + value.value + rest.value; }
      bytes := bytes + value.value;
      v := v + 1;
    }
    FedNothing(Ok([]), bytes);
    return Ok(bytes);
  }

  method FeedRow(fed: Bytes, row: CanonicalRow) returns (input: Result<Bytes, DigestError>)
    ensures input == Then(fed, RowFrame(row))
  {
    hide KeyBytes, ValuesBytes, BigEndian;
    var bytes := FeedKey(fed + BigEndian(|row.key|, 8), row.key);
    input := FeedValues(bytes + BigEndian(|row.values|, 8), row.values);
    if ValuesBytes(row.values).Ok? {
      ghost var values := ValuesBytes(row.values).value;
      assert fed + (BigEndian(|row.key|, 8) + KeyBytes(row.key) + BigEndian(|row.values|, 8) + values) ==
             bytes + BigEndian(|row.values|, 8) + values;
    }
  }

  predicate FitsKey(key: seq<Bytes>) {
    |key| <= USIZE_MAX && forall i | 0 <= i < |key| :: |key[i]| <= USIZE_MAX
  }

  predicate FitsValues(values: Tuple) {
    |values| <= USIZE_MAX && forall i | 0 <= i < |values| :: (values[i].Text? || values[i].Binary? ==> |values[i].value| <= USIZE_MAX)
  }

  /** Lengths that a 64-bit machine can hold. */
  predicate Fits(row: CanonicalRow) {
    FitsKey(row.key) && FitsValues(row.values)
  }

  lemma TaggedPrefix(s: byte, t: byte, a: Bytes, b: Bytes, x: Bytes, y: Bytes)
    requires |a| <= USIZE_MAX && |b| <= USIZE_MAX && Tagged(s, a) + x == Tagged(t, b) + y
    ensures s == t && a == b && x == y
  {
    assert [s] + (Field(a) + x) == Tagged(s, a) + x;
    assert [t] + (Field(b) + y) == Tagged(t, b) + y;
    SamePrefix([s], [t], Field(a) + x, Field(b) + y);
    FieldPrefix(a, b, x, y);
  }

  lemma {:induction false} KeyPrefix(a: seq<Bytes>, b: seq<Bytes>, x: Bytes, y: Bytes)
    requires |a| == |b| && FitsKey(a) && FitsKey(b) && KeyBytes(a) + x == KeyBytes(b) + y
    ensures a == b && x == y
    decreases |a|
  {
    if a == [] {
      assert KeyBytes(a) + x == x && KeyBytes(b) + y == y;
    } else {
      assert Tagged(1, a[0]) + (KeyBytes(a[1..]) + x) == KeyBytes(a) + x;
      assert Tagged(1, b[0]) + (KeyBytes(b[1..]) + y) == KeyBytes(b) + y;
      TaggedPrefix(1, 1, a[0], b[0], KeyBytes(a[1..]) + x, KeyBytes(b[1..]) + y);
      KeyPrefix(a[1..], b[1..], x, y);
    }
  }

  lemma ValuePrefix(a: Cell, b: Cell, x: Bytes, y: Bytes)
    requires ValueBytes(a).Ok? && ValueBytes(b).Ok? && FitsValues([a]) && FitsValues([b])
    requires ValueBytes(a).value + x == ValueBytes(b).value + y
    ensures a == b && x == y
  {
    assert [a][0] == a && [b][0] == b;
    assert (ValueBytes(a).value + x)[0] == ValueBytes(a).value[0] && (ValueBytes(b).value + y)[0] == ValueBytes(b).value[0];
    if a.Null? {
      SamePrefix([0], [0], x, y);
    } else {
      TaggedPrefix(if a.Text? then 2 else 3, if b.Text? then 2 else 3, a.value, b.value, x, y);
    }
  }

  lemma {:induction false} ValuesPrefix(a: Tuple, b: Tuple, x: Bytes, y: Bytes)
    requires |a| == |b| && FitsValues(a) && FitsValues(b) && ValuesBytes(a).Ok? && ValuesBytes(b).Ok?
    requires ValuesBytes(a).value + x == ValuesBytes(b).value + y
    ensures a == b && x == y
    decreases |a|
  {
    hide ValueBytes;
    if a == [] {
      assert ValuesBytes(a).value + x == x && ValuesBytes(b).value + y == y;
    } else {
      var p, q := ValuesBytes(a[1..]).value, ValuesBytes(b[1..]).value;
      assert ValueBytes(a[0]).value + (p + x) == ValuesBytes(a).value + x;
      assert ValueBytes(b[0]).value + (q + y) == ValuesBytes(b).value + y;
      ValuePrefix(a[0], b[0], p + x, q + y);
      ValuesPrefix(a[1..], b[1..], x, y);
    }
  }

  lemma RowPrefix(a: CanonicalRow, b: CanonicalRow, x: Bytes, y: Bytes)
    requires Fits(a) && Fits(b) && RowFrame(a).Ok? && RowFrame(b).Ok? && RowFrame(a).value + x == RowFrame(b).value + y
    ensures a == b && x == y
  {
    hide KeyBytes, ValuesBytes, FitsKey, FitsValues, BigEndian;
    var p, q := ValuesBytes(a.values).value, ValuesBytes(b.values).value;
    var c, d := BigEndian(|a.values|, 8), BigEndian(|b.values|, 8);
    assert BigEndian(|a.key|, 8) + (KeyBytes(a.key) + (c + (p + x))) == RowFrame(a).value + x;
    assert BigEndian(|b.key|, 8) + (KeyBytes(b.key) + (d + (q + y))) == RowFrame(b).value + y;
    SamePrefix(BigEndian(|a.key|, 8), BigEndian(|b.key|, 8), KeyBytes(a.key) + (c + (p + x)), KeyBytes(b.key) + (d + (q + y)));
    RangeOf8();
    FitsCounts(a);
    FitsCounts(b);
    BigEndianInjective(|a.key|, |b.key|, 8);
    KeyPrefix(a.key, b.key, c + (p + x), d + (q + y));
    SamePrefix(c, d, p + x, q + y);
    BigEndianInjective(|a.values|, |b.values|, 8);
    ValuesPrefix(a.values, b.values, x, y);
  }

  lemma FitsCounts(row: CanonicalRow)
    requires Fits(row)
    ensures |row.key| <= USIZE_MAX && |row.values| <= USIZE_MAX
  {
  }

  lemma RowFrameNonempty(row: CanonicalRow)
    requires RowFrame(row).Ok?
    ensures |RowFrame(row).value| >= 16
  {
  }

  /** The bytes hashed for a chunk determine its list of rows: number, boundaries, keys and values. */
  lemma {:induction false} ChunkBytesDetermineRows(a: seq<CanonicalRow>, b: seq<CanonicalRow>)
    requires (forall i | 0 <= i < |a| :: Fits(a[i])) && (forall i | 0 <= i < |b| :: Fits(b[i]))
    requires ChunkBytes(a).Ok? && ChunkBytes(a) == ChunkBytes(b)
    ensures a == b
    decreases |a|
  {
    hide RowFrame, Fits;
    if a == [] {
      if b != [] { RowFrameNonempty(b[0]); }
    } else {
      RowFrameNonempty(a[0]);
      assert b != [];
      RowPrefix(a[0], b[0], ChunkBytes(a[1..]).value, ChunkBytes(b[1..]).value);
      ChunkBytesDetermineRows(a[1..], b[1..]);
    }
  }
}
