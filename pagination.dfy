/** The paging parameters of the search endpoints: a 1-based page `index` and
    a page `size`, both signed 64-bit, turned into an offset (`skip`) and a
    limit (`take`). */
module Pagination {
  import opened Wrappers

  const I64_MIN: int := -0x8000_0000_0000_0000
  const I64_MAX: int := 0x7FFF_FFFF_FFFF_FFFF
  const TWO_64: int := 0x1_0000_0000_0000_0000

  type i64 = x: int | I64_MIN <= x <= I64_MAX

  predicate InRange(x: int)
  {
    I64_MIN <= x <= I64_MAX
  }

  datatype Pagination = Pagination(index: i64, size: i64)

  /** `i64::checked_sub`: the difference when it fits, `None` on overflow. */
  function CheckedSub(a: i64, b: i64): (r: Option<i64>)
    ensures r.Some? <==> InRange(a - b)
    ensures r.Some? ==> r.value == a - b
  {
    if InRange(a - b) then Some(a - b) else None
  }

  /** `i64 * i64` with overflow checks on (the default for debug builds): the
      product when it fits, `None` where the program panics. */
  function CheckedMul(a: i64, b: i64): (r: Option<i64>)
    ensures r.Some? <==> InRange(a * b)
    ensures r.Some? ==> r.value == a * b
  {
    if InRange(a * b) then Some(a * b) else None
  }

  /** Two's-complement truncation to 64 bits. */
  function Wrap(x: int): (r: i64)
    ensures (r - x) % TWO_64 == 0
    ensures InRange(x) ==> r == x
  {
    (x - I64_MIN) % TWO_64 + I64_MIN
  }

  /** `i64 * i64` without overflow checks (the default for release builds). */
  function WrappingMul(a: i64, b: i64): (r: i64)
    ensures (r - a * b) % TWO_64 == 0
    ensures InRange(a * b) ==> r == a * b
  {
    Wrap(a * b)
  }

  /** `Pagination::skip`: the page before `index` times `size`; an `index` of
      `i64::MIN`, whose predecessor does not fit, counts as page zero. `None` is
      the overflow panic of a checked build. */
  function Skip(p: Pagination): (r: Option<i64>)
    ensures p.index > I64_MIN ==> (r.Some? <==> InRange((p.index - 1) * p.size))
    ensures p.index > I64_MIN && r.Some? ==> r.value == (p.index - 1) * p.size
    ensures p.index == I64_MIN ==> r == Some(0)
  {
    var before := CheckedSub(p.index, 1).UnwrapOr(0);
    CheckedMul(before, p.size)
  }

  /** `Pagination::skip` in a build without overflow checks. */
  function SkipWrapping(p: Pagination): (r: i64)
    ensures p.index > I64_MIN ==> (r - (p.index - 1) * p.size) % TWO_64 == 0
    ensures p.index > I64_MIN && InRange((p.index - 1) * p.size) ==> r == (p.index - 1) * p.size
    ensures p.index == I64_MIN ==> r == 0
  {
    var before := CheckedSub(p.index, 1).UnwrapOr(0);
    WrappingMul(before, p.size)
  }

  /** `Pagination::take`: the size, never negative. */
  function Take(p: Pagination): (r: i64)
    ensures r >= 0
    ensures p.size >= 0 ==> r == p.size
    ensures p.size < 0 ==> r == 0
  {
    if p.size >= 0 then p.size else 0
  }

  /** Both builds agree wherever the checked one does not panic, and the checked
      one panics exactly when the true offset does not fit in 64 bits. */
  lemma SkipBuildsAgree(p: Pagination)
    ensures Skip(p).Some? ==> SkipWrapping(p) == Skip(p).value
    ensures p.index > I64_MIN ==> (Skip(p).None? <==> !InRange((p.index - 1) * p.size))
  {
  }

  /** Above `i64::MIN` the offset is `(index - 1) * size` when that fits. */
  lemma SkipIsOffsetOfPreviousPages(p: Pagination)
    requires p.index > I64_MIN && InRange((p.index - 1) * p.size)
    ensures Skip(p) == Some((p.index - 1) * p.size)
    ensures SkipWrapping(p) == (p.index - 1) * p.size
  {
  }

  /** The first page starts at offset zero. */
  lemma FirstPageSkipsNothing(p: Pagination)
    requires p.index == 1
    ensures Skip(p) == Some(0) && SkipWrapping(p) == 0
  {
  }

  /** `i64::MIN` has no predecessor: `checked_sub` fails, and the fallback zero
      makes the offset zero whatever the size. */
  lemma MinimumIndexSkipsNothing(p: Pagination)
    requires p.index == I64_MIN
    ensures Skip(p) == Some(0) && SkipWrapping(p) == 0
  {
    assert CheckedSub(p.index, 1).None?;
  }

  /** A page index of zero or below, other than `i64::MIN`, gives a negative
      offset for any positive size. */
  lemma NonPositiveIndexSkipsBackwards(p: Pagination)
    requires I64_MIN < p.index <= 0 && p.size > 0
    ensures Skip(p).Some? ==> Skip(p).value < 0
    ensures Skip(p).None? <==> (p.index - 1) * p.size < I64_MIN
  {
    NegativeTimesPositive(p.index - 1, p.size);
  }

  lemma NegativeTimesPositive(a: int, b: int)
    requires a < 0 < b
    ensures a * b <= a && a * b < 0
  {
  }

  /** Consecutive pages tile the results: for non-negative sizes and positive
      indices, each page starts where the previous one ended. */
  lemma PagesAreContiguous(p: Pagination)
    requires 1 <= p.index < I64_MAX && p.size >= 0
    requires InRange(p.index * p.size)
    ensures var next := Pagination(p.index + 1, p.size);
      Skip(p).Some? && Skip(next).Some? && Skip(next).value == Skip(p).value + Take(p)
  {
    var before := p.index - 1;
    PreviousPageProduct(p.index, p.size);
    assert CheckedSub(p.index, 1) == Some(before);
    assert Skip(p) == Some(before * p.size);
    assert CheckedSub(p.index + 1, 1) == Some(p.index);
  }

  lemma PreviousPageProduct(a: int, b: int)
    requires a >= 1 && b >= 0
    ensures (a - 1) * b == a * b - b && 0 <= (a - 1) * b <= a * b
  {
  }
}
