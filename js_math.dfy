/** The few JavaScript number operations the pages use, on exact numbers. */
module JsMath {

  datatype Option<T> = None | Some(value: T)

  /** A value returned by Math.random(): a real in [0, 1). */
  type Draw = r: real | 0.0 <= r < 1.0

  function Min(a: int, b: int): int { if a <= b then a else b }

  function Max(a: int, b: int): int { if a >= b then a else b }

  function MinReal(a: real, b: real): real { if a <= b then a else b }

  function MaxReal(a: real, b: real): real { if a >= b then a else b }

  function AbsReal(x: real): real { if x < 0.0 then -x else x }

  /** Math.floor: the greatest integer not above x. */
  function Floor(x: real): (r: int)
    ensures r as real <= x < r as real + 1.0
  {
    x.Floor
  }

  /** Math.round: the nearest integer, a tie going towards positive infinity. */
  function Round(x: real): (r: int)
    ensures x - 0.5 < r as real <= x + 0.5
  {
    Floor(x + 0.5)
  }

  /** An integer is the floor of every real in the unit interval above it. */
  lemma FloorUnique(x: real, k: int)
    requires k as real <= x < k as real + 1.0
    ensures Floor(x) == k
  {
  }

  /** Math.round(n / d) for integers, computed with integer division alone. */
  function RoundDiv(n: int, d: int): (r: int)
    requires d > 0
    ensures r == Round(n as real / d as real)
    ensures 2 * d * r <= 2 * n + d < 2 * d * (r + 1)
  {
    var q := (2 * n + d) / (2 * d);
    RoundDivIsRound(n, d, q);
    q
  }

  lemma RoundDivIsRound(n: int, d: int, q: int)
    requires d > 0 && q == (2 * n + d) / (2 * d)
    ensures 2 * d * q <= 2 * n + d < 2 * d * (q + 1)
    ensures q == Round(n as real / d as real)
  {
    var x := n as real / d as real + 0.5;
    assert x == (2 * n + d) as real / (2 * d) as real;
    assert (2 * d * q) as real <= (2 * n + d) as real < (2 * d * (q + 1)) as real;
    assert q as real <= x < (q + 1) as real by {
      DivideBounds((2 * d) as real, q as real, (q + 1) as real, (2 * n + d) as real);
    }
    FloorUnique(x, q);
  }

  /** A draw scales a non-negative extent to a point of [0, extent], short of a positive extent. */
  lemma ScaleDraw(r: Draw, extent: real)
    ensures extent >= 0.0 ==> 0.0 <= r * extent <= extent
    ensures extent > 0.0 ==> r * extent < extent
  {
    assert extent - r * extent == (1.0 - r) * extent;
  }

  /** Dividing by a positive c keeps c * lo <= y < c * hi between lo and hi. */
  lemma DivideBounds(c: real, lo: real, hi: real, y: real)
    requires c > 0.0 && c * lo <= y < c * hi
    ensures lo <= y / c < hi
  {
    assert (c * lo) / c == lo;
    assert (c * hi) / c == hi;
  }

  /** The rounded quotient of a sum lies between the bounds of its summands. */
  lemma RoundDivBetween(n: int, d: int, lo: int, hi: int)
    requires d > 0 && d * lo <= n <= d * hi
    ensures lo <= RoundDiv(n, d) <= hi
  {
    QuotientBetween(n, d, RoundDiv(n, d), lo, hi);
  }

  /** The integer core of the bound: r with 2dr <= 2n + d < 2d(r + 1) lies in [lo, hi]. */
  lemma QuotientBetween(n: int, d: int, r: int, lo: int, hi: int)
    requires d > 0 && d * lo <= n <= d * hi
    requires 2 * d * r <= 2 * n + d < 2 * d * (r + 1)
    ensures lo <= r <= hi
  {
    FactorLess(2 * d, lo, r + 1);
    FactorLess(2 * d, r, hi + 1);
  }

  lemma FactorLess(c: int, a: int, b: int)
    requires c > 0 && c * a < c * b
    ensures a < b
  {
    assert c * (b - a) > 0;
  }

  /** The sum of a sequence, as Array.prototype.reduce((a, b) => a + b, 0) gives it. */
  function Sum(s: seq<int>): int
  {
    if s == [] then 0 else Sum(s[..|s| - 1]) + s[|s| - 1]
  }

  /** The left-to-right sum also splits off the first element: the order of the fold does not matter. */
  lemma {:induction false} SumFront(s: seq<int>)
    requires s != []
    ensures Sum(s) == s[0] + Sum(s[1..])
    decreases |s|
  {
    if |s| > 1 {
      var init := s[..|s| - 1];
      SumFront(init);
      assert init[1..] == s[1..][..|s| - 2];
    }
  }

  /** Lower and upper bounds on every element bound the sum. */
  lemma {:induction false} SumBetween(s: seq<int>, lo: int, hi: int)
    requires forall i :: 0 <= i < |s| ==> lo <= s[i] <= hi
    ensures |s| * lo <= Sum(s) <= |s| * hi
  {
    if s != [] {
      SumBetween(s[..|s| - 1], lo, hi);
    }
  }
}
