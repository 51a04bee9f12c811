/** Exact money arithmetic and the two rounding steps of the engine.
    `Math.round` rounds half-way values up (towards positive infinity);
    the engine's two-decimal `format` is `Math.round(n * 100) / 100`. */
module Money {

  /** `Math.round(x)`: the whole number nearest to `x`, half-way values going up. */
  function Round0(x: real): (r: int)
    ensures r as real - 0.5 <= x < r as real + 0.5
  {
    (x + 0.5).Floor
  }

  /** An amount that is a whole number of paise (hundredths). */
  predicate IsCents(x: real) {
    (x * 100.0).Floor as real == x * 100.0
  }

  /** Rounding to two decimals: the amount of whole paise nearest to `x`, half-way values going up. */
  function Round2(x: real): (r: real)
    ensures IsCents(r)
    ensures r - 0.005 <= x < r + 0.005
  {
    var k := Round0(x * 100.0);
    assert (k as real / 100.0) * 100.0 == k as real;
    k as real / 100.0
  }

  /** `Round0` is determined by its contract: any whole number within half a unit
      below `x` and less than half a unit above it is the rounded value. */
  lemma {:induction false} Round0Unique(x: real, n: int)
    requires n as real - 0.5 <= x < n as real + 0.5
    ensures Round0(x) == n
  {
  }

  /** `Round2` is determined by its contract. */
  lemma {:induction false} Round2Unique(x: real, y: real)
    requires IsCents(y)
    requires y - 0.005 <= x < y + 0.005
    ensures Round2(x) == y
  {
    var n := (y * 100.0).Floor;
    assert n as real - 0.5 <= x * 100.0 < n as real + 0.5;
    Round0Unique(x * 100.0, n);
  }

  /** Rounding again changes nothing: whole numbers are fixed by `Round0`,
      whole paise by `Round2`. */
  lemma {:induction false} RoundingIsIdempotent(x: real)
    ensures Round0(Round0(x) as real) == Round0(x)
    ensures Round2(Round2(x)) == Round2(x)
  {
    Round0Unique(Round0(x) as real, Round0(x));
    Round2Unique(Round2(x), Round2(x));
  }

  /** A sum of whole-paise amounts is a whole-paise amount, so `Round2` keeps it. */
  lemma {:induction false} CentsSumIsExact(a: real, b: real, c: real)
    requires IsCents(a) && IsCents(b) && IsCents(c)
    ensures IsCents(a + b + c)
    ensures Round2(a + b + c) == a + b + c
  {
    var ka, kb, kc := (a * 100.0).Floor, (b * 100.0).Floor, (c * 100.0).Floor;
    assert (a + b + c) * 100.0 == (ka + kb + kc) as real;
    Round2Unique(a + b + c, a + b + c);
  }

  /** Rounding never turns a non-negative amount negative. */
  lemma {:induction false} Round2NonNegative(x: real)
    requires x >= 0.0
    ensures Round2(x) >= 0.0
  {
    var r := Round2(x);
    var k := (r * 100.0).Floor;
    assert k as real == r * 100.0;
    assert r * 100.0 > -0.5;
  }

  lemma {:induction false} Round2OfZero()
    ensures Round2(0.0) == 0.0
  {
    Round2Unique(0.0, 0.0);
  }
}
