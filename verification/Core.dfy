/** Shared value types: optional values, results, byte strings and saturating machine arithmetic. */
module Core {
  datatype Option<+T> = None | Some(value: T)

  datatype Result<+T, +E> = Ok(value: T) | Err(error: E)

  newtype byte = i: int | 0 <= i < 256

  type Bytes = seq<byte>

  /** The largest `usize`/`u64` of the 64-bit builds the engine ships. */
  const USIZE_MAX: nat := 0xFFFF_FFFF_FFFF_FFFF
  const I64_MAX: nat := 0x7FFF_FFFF_FFFF_FFFF

  /** Rust's `saturating_add` on a 64-bit unsigned integer. */
  function SaturatingAdd(a: nat, b: nat): (r: nat)
    ensures a <= r || r == USIZE_MAX
    ensures r <= USIZE_MAX
    ensures a + b <= USIZE_MAX ==> r == a + b
  {
    if a + b <= USIZE_MAX then a + b else USIZE_MAX
  }

  ghost predicate Distinct<T>(s: seq<T>) {
    forall i, j | 0 <= i < j < |s| :: s[i] != s[j]
  }

  /** The first position of `x` in `s`. */
  function IndexOf<T(==)>(s: seq<T>, x: T): (r: nat)
    requires x in s
    ensures r < |s| && s[r] == x
    ensures forall i | 0 <= i < r :: s[i] != x
  {
    if s[0] == x then 0 else 1 + IndexOf(s[1..], x)
  }

  lemma DistinctCounts<T>(s: seq<T>, x: T)
    requires Distinct(s)
    ensures multiset(s)[x] <= 1
  {
    if s != [] {
      var init := s[..|s| - 1];
      assert s == init + [s[|s| - 1]];
      DistinctCounts(init, x);
      if x == s[|s| - 1] {
        assert x !in init;
        assert x !in multiset(init);
      }
    }
  }

  /** A permutation of a duplicate-free sequence is duplicate-free and has the same members. */
  lemma DistinctPermutes<T>(a: seq<T>, b: seq<T>)
    requires multiset(a) == multiset(b) && Distinct(b)
    ensures |a| == |b| && Distinct(a)
    ensures forall x :: x in a <==> x in b
  {
    assert |a| == |multiset(a)| == |multiset(b)| == |b|;
    forall x ensures x in a <==> x in b {
      assert x in a <==> x in multiset(a);
      assert x in b <==> x in multiset(b);
    }
    if i, j :| 0 <= i < j < |a| && a[i] == a[j] {
      assert a == a[..i] + [a[i]] + a[i + 1..j] + [a[j]] + a[j + 1..];
      assert multiset(a)[a[i]] >= 2;
      DistinctCounts(b, a[i]);
    }
  }
}
