/**
 * Client utilities: item ids from a module counter, weighted picking with a
 * supplied roll, and the Lehmer generator behind the seeded daily choices.
 * `Math.random()` and `Date.now()` are parameters: a roll `u` with
 * 0 <= u < 1, and `now` in milliseconds.
 */
module Utils {
  import opened Common

  // ---------------------------------------------------------------------------
  // uid()

  /** The decimal digits of n, as `String(n)` prints a non-negative integer. */
  function Decimal(n: nat): (s: string)
    ensures |s| >= 1 && forall k :: 0 <= k < |s| ==> '0' <= s[k] <= '9'
  {
    if n < 10 then [Digit(n)] else Decimal(n / 10) + [Digit(n % 10)]
  }

  function Digit(d: nat): (c: char)
    requires d < 10
    ensures '0' <= c <= '9'
  {
    ('0' as int + d) as char
  }

  /** Different numbers print differently. */
  lemma {:induction false} DecimalInjective(a: nat, b: nat)
    requires Decimal(a) == Decimal(b)
    ensures a == b
  {
    var s := Decimal(a);
    if a < 10 && b < 10 {
      assert Digit(a) == s[0] == Digit(b);
    } else if a < 10 || b < 10 {
      assert false;
    } else {
      var n := |s|;
      assert Decimal(a / 10) == s[..n - 1] == Decimal(b / 10);
      DecimalInjective(a / 10, b / 10);
      assert Digit(a % 10) == s[n - 1] == Digit(b % 10);
    }
  }

  /** `'item_' + counter + '_' + now` */
  function UidText(counter: nat, now: nat): string
  {
    "item_" + Decimal(counter) + "_" + Decimal(now)
  }

  /** Two uids with different counters differ, whatever the clock said. */
  lemma UidTextDistinct(c1: nat, t1: nat, c2: nat, t2: nat)
    requires c1 != c2
    ensures UidText(c1, t1) != UidText(c2, t2)
  {
    var d1, d2 := Decimal(c1), Decimal(c2);
    var u1, u2 := UidText(c1, t1), UidText(c2, t2);
    if |d1| < |d2| {
      assert u1[5 + |d1|] == '_' != d2[|d1|] == u2[5 + |d1|];
    } else if |d2| < |d1| {
      assert u2[5 + |d2|] == '_' != d1[|d2|] == u1[5 + |d2|];
    } else {
      if d1 == d2 {
        DecimalInjective(c1, c2);
        assert false;
      }
      var k :| 0 <= k < |d1| && d1[k] != d2[k];
      assert u1[5 + k] == d1[k] != d2[k] == u2[5 + k];
    }
  }

  /** The module-level `_uid` counter of `uid()` (and `Data._uidCounter` of the older client). */
  class UidCounter {
    var counter: nat

    constructor ()
      ensures counter == 0
    {
      counter := 0;
    }

    /** `uid()`: pre-increments the counter and stamps the clock. */
    method Uid(now: nat) returns (id: string)
      modifies this
      ensures counter == old(counter) + 1
      ensures id == UidText(counter, now)
    {
      counter := counter + 1;
      id := UidText(counter, now);
    }
  }

  /** Two successive calls return different ids, because the counter strictly increases. */
  method SuccessiveUidsDiffer(c: UidCounter, now1: nat, now2: nat) returns (a: string, b: string)
    modifies c
    ensures a != b
  {
    a := c.Uid(now1);
    ghost var first := c.counter;
    b := c.Uid(now2);
    UidTextDistinct(first, now1, c.counter, now2);
  }

  // ---------------------------------------------------------------------------
  // pickWeighted(items), seededPickWeighted(items, rng)

  /** The sum of the first n weights. */
  function Prefix(ws: seq<int>, n: nat): int
    requires n <= |ws|
  {
    if n == 0 then 0 else Prefix(ws, n - 1) + ws[n - 1]
  }

  /**
   * The loop of `pickWeighted` from index i with the roll left after the
   * earlier subtractions: the index of the first weight that brings the roll
   * to 0 or below, else the last index (-1 for an empty list, where JavaScript
   * returns `undefined`).
   */
  function PickFrom(ws: seq<int>, roll: real, i: nat): (k: int)
    requires i <= |ws|
    ensures -1 <= k < |ws| && (ws != [] ==> 0 <= k)
    decreases |ws| - i
  {
    if i == |ws| then |ws| - 1
    else if roll - ws[i] as real <= 0.0 then i
    else PickFrom(ws, roll - ws[i] as real, i + 1)
  }

  /** The sum of all the weights (`items.reduce((s, i) => s + i.weight, 0)`). */
  function Total(ws: seq<int>): int
  {
    Prefix(ws, |ws|)
  }

  /** The index `pickWeighted` returns when its roll is `roll` (`Math.random() * total`). */
  function PickIndex(ws: seq<int>, roll: real): (k: int)
    ensures -1 <= k < |ws| && (ws != [] ==> 0 <= k)
  {
    PickFrom(ws, roll, 0)
  }

  /**
   * What `pickWeighted` promises: the chosen index is the first whose running
   * total of weights reaches the roll; when none does, it is the last index.
   */
  lemma {:induction false} PickFromMeaning(ws: seq<int>, roll: real, i: nat)
    requires i <= |ws| && ws != []
    ensures var k := PickFrom(ws, roll - Prefix(ws, i) as real, i);
      i <= k || k == |ws| - 1
    ensures var k := PickFrom(ws, roll - Prefix(ws, i) as real, i);
      (forall j :: i < j <= k ==> roll > Prefix(ws, j) as real) &&
      (k == |ws| - 1 || roll <= Prefix(ws, k + 1) as real)
    decreases |ws| - i
  {
    if i < |ws| {
      var left := roll - Prefix(ws, i) as real;
      assert left - ws[i] as real == roll - Prefix(ws, i + 1) as real;
      if left - ws[i] as real > 0.0 {
        PickFromMeaning(ws, roll, i + 1);
      }
    }
  }

  lemma PickIndexMeaning(ws: seq<int>, roll: real)
    requires ws != []
    ensures var k := PickIndex(ws, roll);
      0 <= k < |ws| &&
      (forall j :: 0 < j <= k ==> roll > Prefix(ws, j) as real) &&
      (k == |ws| - 1 || roll <= Prefix(ws, k + 1) as real)
  {
    PickFromMeaning(ws, roll, 0);
  }

  /** The roll `Math.random() * total` for the draw u. */
  function Scaled(u: real, total: int): real
  {
    u * total as real
  }

  /**
   * `pickWeighted`: the loop that sums the weights and then subtracts each
   * weight from the roll. `u` is `Math.random()`; the roll is `u * total`.
   */
  method PickWeighted(ws: seq<int>, u: real) returns (k: int, total: int)
    ensures total == Total(ws)
    ensures k == PickIndex(ws, Scaled(u, total))
  {
    total := 0;
    for n := 0 to |ws|
      invariant total == Prefix(ws, n)
    {
      total := total + ws[n];
    }
    var start := Scaled(u, total);
    var roll := start;
    var i := 0;
    while i < |ws|
      invariant 0 <= i <= |ws|
      invariant PickFrom(ws, roll, i) == PickIndex(ws, start)
    {
      roll := roll - ws[i] as real;
      if roll <= 0.0 {
        return i, total;
      }
      i := i + 1;
    }
    k := |ws| - 1;
  }

  // ---------------------------------------------------------------------------
  // seededRandom(seed)

  const Modulus: int := 2147483647
  const Multiplier: int := 16807

  /** JavaScript's `%`: the remainder takes the sign of the dividend. */
  function JsRem(a: int, m: int): (r: int)
    requires m > 0
    ensures a >= 0 ==> r == a % m && 0 <= r < m
    ensures a < 0 ==> -m < r <= 0
  {
    if a >= 0 then a % m else -((-a) % m)
  }

  /** One step of the generator: `s = (s * 16807 + 0) % 2147483647`. */
  function LehmerStep(s: int): (t: int)
    ensures s >= 0 ==> 0 <= t < Modulus
  {
    JsRem(s * Multiplier, Modulus)
  }

  /** The generator state after n draws from `seed`. */
  function LehmerState(seed: int, n: nat): int
  {
    if n == 0 then seed else LehmerStep(LehmerState(seed, n - 1))
  }

  /** The value a draw returns for the new state s. */
  function Draw(s: int): real
  {
    (s - 1) as real / (Modulus - 1) as real
  }

  /** A non-negative seed keeps the state in [0, 2147483647), so every draw is in [-1/2147483646, 1). */
  lemma {:induction false} LehmerStateInRange(seed: int, n: nat)
    requires seed >= 0
    ensures 0 <= LehmerState(seed, n) && (n > 0 ==> LehmerState(seed, n) < Modulus)
    ensures n > 0 ==> -1.0 / (Modulus - 1) as real <= Draw(LehmerState(seed, n)) < 1.0
  {
    if n > 0 {
      LehmerStateInRange(seed, n - 1);
    }
  }

  /** 1407677000 is the inverse of 16807 modulo 2147483647. */
  const MultiplierInverse: int := 1407677000

  /**
   * The modulus is prime and does not divide 16807, so a state strictly
   * between 0 and the modulus never steps to 0: a seed in that range never
   * reaches the stuck state 0.
   */
  lemma StepStaysPositive(s: int)
    requires 0 < s < Modulus
    ensures 0 < LehmerStep(s) < Modulus
  {
    StepInvertible(s);
    assert (LehmerStep(s) * MultiplierInverse) % Modulus == s;
  }

  /** Multiplying a step's result by the inverse of 16807 gives the state back. */
  lemma StepInvertible(s: int)
    requires 0 <= s < Modulus
    ensures (LehmerStep(s) * MultiplierInverse) % Modulus == s
  {
    var p := s * Multiplier;
    var q, r := p / Modulus, p % Modulus;
    assert LehmerStep(s) == r;
    assert p == Modulus * q + r;
    assert Multiplier * MultiplierInverse == 1 + Modulus * 11017;
    var k := s * 11017 - q * MultiplierInverse;
    calc {
      r * MultiplierInverse;
      == (p - Modulus * q) * MultiplierInverse;
      == s * (Multiplier * MultiplierInverse) - Modulus * (q * MultiplierInverse);
      == s * (1 + Modulus * 11017) - Modulus * (q * MultiplierInverse);
      == s + Modulus * k;
    }
    ModuloOfShift(k, s);
  }

  /** Adding a multiple of the modulus does not change the remainder of a value already below it. */
  lemma ModuloOfShift(k: int, s: int)
    requires 0 <= s < Modulus
    ensures (s + Modulus * k) % Modulus == s
  {
    var x := s + Modulus * k;
    assert x == Modulus * (x / Modulus) + x % Modulus;
    assert 0 <= x % Modulus < Modulus;
    var d := x / Modulus - k;
    assert Modulus * d == s - x % Modulus;
    assert -Modulus < Modulus * d < Modulus;
    assert d == 0;
  }

  /** A state strictly between 0 and the modulus draws a number in [0, 1). */
  lemma DrawInUnit(s: int)
    requires 0 < s < Modulus
    ensures 0.0 <= Draw(s) < 1.0
  {
  }

  /** The closure returned by `seededRandom(seed)`: its captured `s` is the field. */
  class SeededRandom {
    var s: int
    ghost var draws: nat
    ghost const seed: int

    ghost predicate Valid()
      reads this
    {
      s == LehmerState(seed, draws)
    }

    constructor (seed0: int)
      ensures this.seed == seed0 && draws == 0 && Valid()
    {
      seed := seed0;
      s := seed0;
      draws := 0;
    }

    /** `rng()` */
    method Next() returns (r: real)
      requires Valid()
      modifies this
      ensures Valid() && draws == old(draws) + 1
      ensures s == LehmerStep(old(s)) && r == Draw(s)
    {
      s := JsRem(s * Multiplier, Modulus);
      draws := draws + 1;
      r := Draw(s);
    }
  }

  /** Two generators made from the same seed give the same draws, one for one. */
  method SameSeedSameDraws(seed: int) returns (a: real, b: real)
    ensures a == b == Draw(LehmerState(seed, 1))
  {
    var g1 := new SeededRandom(seed);
    var g2 := new SeededRandom(seed);
    a := g1.Next();
    b := g2.Next();
  }

  /** `seededPickWeighted(items, rng)`: `pickWeighted` with the roll drawn from the generator. */
  method SeededPickWeighted(ws: seq<int>, rng: SeededRandom) returns (k: int)
    requires rng.Valid()
    modifies rng
    ensures rng.Valid() && rng.draws == old(rng.draws) + 1 && rng.s == LehmerStep(old(rng.s))
    ensures k == PickIndex(ws, Scaled(Draw(rng.s), Total(ws)))
  {
    var u := rng.Next();
    var total;
    k, total := PickWeighted(ws, u);
  }
}
