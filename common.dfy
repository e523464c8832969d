/** Small helpers shared by every module of the model. */
module Common {

  /** A value that may be missing: JavaScript's `null`/`undefined`, Python's `None`. */
  datatype Option<T> = None | Some(value: T)

  /** The outcome of an operation that can be refused: a value, or the reason for refusing. */
  datatype Result<T, E> = Ok(value: T) | Err(error: E)

  function Max(a: int, b: int): (r: int)
    ensures r >= a && r >= b && (r == a || r == b)
  {
    if a >= b then a else b
  }

  function Min(a: int, b: int): (r: int)
    ensures r <= a && r <= b && (r == a || r == b)
  {
    if a <= b then a else b
  }

  /**
   * `Math.floor(x * (num / den))` read over exact rationals: the largest
   * integer not above x·num/den (Dafny's `/` on int is floor division for a
   * positive divisor, like `Math.floor`).
   */
  function FloorFrac(x: int, num: int, den: nat): (r: int)
    requires den > 0
    ensures r * den <= x * num < (r + 1) * den
  {
    (x * num) / den
  }

  lemma FloorFracBounds(x: int, num: int, den: nat)
    requires den > 0 && x >= 0 && 0 <= num <= den
    ensures 0 <= FloorFrac(x, num, den) <= x
  {
    var r := FloorFrac(x, num, den);
    assert x * den - x * num == x * (den - num) >= 0;
    MulCancel(r, x, den);
    assert 0 * den <= x * num < (r + 1) * den;
    MulCancel(0, r + 1, den);
  }

  /** A larger factor never gives a smaller floor, for a non-negative x. */
  lemma FloorFracMono(x: int, num1: int, num2: int, den: nat)
    requires den > 0 && x >= 0 && num1 <= num2
    ensures FloorFrac(x, num1, den) <= FloorFrac(x, num2, den)
  {
    var r1, r2 := FloorFrac(x, num1, den), FloorFrac(x, num2, den);
    assert x * num2 - x * num1 == x * (num2 - num1) >= 0;
    assert r1 * den <= x * num1 <= x * num2 < (r2 + 1) * den;
    MulCancel(r1, r2 + 1, den);
  }

  /** A factor of at least one never lowers a non-negative x. */
  lemma FloorFracGrows(x: int, num: int, den: nat)
    requires den > 0 && x >= 0 && num >= den
    ensures FloorFrac(x, num, den) >= x
  {
    var r := FloorFrac(x, num, den);
    assert x * num - x * den == x * (num - den) >= 0;
    assert x * den <= x * num < (r + 1) * den;
    MulCancel(x, r + 1, den);
  }

  /** Cancelling a positive factor from an inequality. */
  lemma MulCancel(a: int, b: int, d: nat)
    requires d > 0
    ensures a * d <= b * d ==> a <= b
    ensures a * d < b * d ==> a < b
  {
    assert (b - a) * d == b * d - a * d;
  }

  /** The integer square root, the largest r with r·r <= n. */
  function ISqrt(n: nat): (r: nat)
    ensures r * r <= n < (r + 1) * (r + 1)
  {
    if n == 0 then 0
    else
      var h := ISqrt(n / 4);
      SquaresOfDoubles(h);
      if (2 * h + 1) * (2 * h + 1) <= n then 2 * h + 1 else 2 * h
  }

  /** The squares of 2h, 2h + 1 and 2h + 2 in terms of the squares of h and h + 1. */
  lemma SquaresOfDoubles(h: nat)
    ensures (2 * h) * (2 * h) == 4 * (h * h)
    ensures (2 * h + 2) * (2 * h + 2) == 4 * ((h + 1) * (h + 1))
    ensures (2 * h + 1 + 1) * (2 * h + 1 + 1) == 4 * ((h + 1) * (h + 1))
  {
  }

  /** ISqrt is the square root it claims to be: it is the only number with that property. */
  lemma {:induction false} ISqrtUnique(n: nat, r: nat)
    requires r * r <= n < (r + 1) * (r + 1)
    ensures ISqrt(n) == r
  {
    var s := ISqrt(n);
    if s < r {
      assert s + 1 <= r;
      MulMono(s + 1, r);
      assert false;
    } else if s > r {
      assert r + 1 <= s;
      MulMono(r + 1, s);
      assert false;
    }
  }

  /** Every number whose square fits under n is at most ISqrt(n). */
  lemma ISqrtMaximal(n: nat, s: nat)
    requires s * s <= n
    ensures s <= ISqrt(n)
  {
    var r := ISqrt(n);
    if s > r {
      MulMono(r + 1, s);
      assert false;
    }
  }

  lemma MulMono(a: nat, b: nat)
    requires a <= b
    ensures a * a <= b * b
  {
    assert a * a <= a * b <= b * b;
  }

  lemma CubeMono(a: nat, b: nat)
    requires a <= b
    ensures a * a * a <= b * b * b
  {
    MulMono(a, b);
    assert a * a * a <= b * b * a <= b * b * b;
  }

  /** Sum of a sequence of integers. */
  function Sum(s: seq<int>): int
  {
    if s == [] then 0 else Sum(s[..|s| - 1]) + s[|s| - 1]
  }

  /** `s` with its element at index i removed (`filter((_, j) => j !== i)`, `splice(i, 1)`). */
  function RemoveAt<T>(s: seq<T>, i: nat): (r: seq<T>)
    requires i < |s|
    ensures |r| == |s| - 1
    ensures forall k :: 0 <= k < i ==> r[k] == s[k]
    ensures forall k :: i <= k < |r| ==> r[k] == s[k + 1]
    ensures multiset(r) + multiset{s[i]} == multiset(s)
  {
    assert s == s[..i] + [s[i]] + s[i + 1..];
    s[..i] + s[i + 1..]
  }

  /** Whether the elements of a sequence are pairwise distinct. */
  predicate Distinct<T(==)>(s: seq<T>)
  {
    forall i, j :: 0 <= i < j < |s| ==> s[i] != s[j]
  }
}
