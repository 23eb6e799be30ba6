/** Rounding and clamping shared by every part of the engine.

    Each source file has its own copy of `round` (`Number(value.toFixed(3))`)
    and of `clamp`/`clampNumber`; they agree, so they are defined once here.
    Numbers are exact reals: the model does not reproduce binary floating
    point, only the decimal rounding the source asks for. */
module Numeric {
  import opened Wrappers

  /** x is a multiple of 0.001. */
  ghost predicate OnGrid(x: real) {
    (x * 1000.0).Floor as real == x * 1000.0
  }

  /** The nearest integer, halves away from zero (toFixed works on the
      magnitude and then puts the sign back). */
  function RoundHalfAway(x: real): int {
    if x >= 0.0 then (x + 0.5).Floor else -(-x + 0.5).Floor
  }

  /** `Number(x.toFixed(3))`, the `round` of every source file, on the
      exact value x: x in thousandths, rounded half away from zero. */
  function Round3(x: real): (r: real)
    ensures -0.0005 <= r - x <= 0.0005
    ensures x >= 0.0 ==> r >= 0.0
  {
    RoundHalfAway(x * 1000.0) as real / 1000.0
  }

  /** A rounded value is on the grid. */
  lemma Round3IsOnGrid(x: real)
    ensures OnGrid(Round3(x))
  {
    var n := RoundHalfAway(x * 1000.0);
    assert (n as real / 1000.0) * 1000.0 == n as real;
    assert (n as real).Floor == n;
  }

  lemma FloorMono(x: real, y: real)
    requires x <= y
    ensures x.Floor <= y.Floor
  {
  }

  /** Rounding never reverses an order. */
  lemma Round3Mono(x: real, y: real)
    requires x <= y
    ensures Round3(x) <= Round3(y)
  {
    if 0.0 <= x {
      FloorMono(x * 1000.0 + 0.5, y * 1000.0 + 0.5);
    } else if y < 0.0 {
      FloorMono(-y * 1000.0 + 0.5, -x * 1000.0 + 0.5);
    }
  }

  /** A value already on the grid is left alone. */
  lemma Round3OnGrid(x: real)
    requires OnGrid(x)
    ensures Round3(x) == x
  {
    var n := (x * 1000.0).Floor;
    assert x * 1000.0 == n as real;
    if x >= 0.0 {
      assert (x * 1000.0 + 0.5).Floor == n;
    } else {
      assert (-x * 1000.0 + 0.5).Floor == -n;
    }
  }

  /** Rounding twice is rounding once. */
  lemma Round3Idempotent(x: real)
    ensures Round3(Round3(x)) == Round3(x)
  {
    Round3IsOnGrid(x);
    Round3OnGrid(Round3(x));
  }

  /** Rounding is symmetric about zero. */
  lemma Round3Neg(x: real)
    ensures Round3(-x) == -Round3(x)
  {
  }

  /** Rounding keeps a value inside bounds that are themselves on the grid. */
  lemma Round3Within(x: real, lo: real, hi: real)
    requires OnGrid(lo) && OnGrid(hi) && lo <= x <= hi
    ensures lo <= Round3(x) <= hi
  {
    Round3Mono(lo, x);
    Round3Mono(x, hi);
    Round3OnGrid(lo);
    Round3OnGrid(hi);
  }

  /** Zero rounds to zero. */
  lemma ZeroRounds()
    ensures Round3(0.0) == 0.0
  {
    IntOnGrid(0);
    Round3OnGrid(0.0);
  }

  lemma IntOnGrid(n: int)
    ensures OnGrid(n as real)
  {
    assert (n as real) * 1000.0 == (n * 1000) as real;
  }

  lemma MulPos(k: int, n: int)
    requires k >= 1 && n > 0
    ensures k * n >= n
    decreases k
  {
    if k > 1 {
      MulPos(k - 1, n);
      assert k * n == (k - 1) * n + n;
    }
  }

  /** The remainder is determined by any quotient-remainder split. */
  lemma ModUnique(x: int, n: int, d: int, r: int)
    requires n > 0 && 0 <= r < n && x == d * n + r
    ensures x % n == r
  {
    var d0 := x / n;
    var r0 := x % n;
    assert x == d0 * n + r0;
    if d0 > d {
      assert (d0 - d) * n == d0 * n - d * n;
      MulPos(d0 - d, n);
    } else if d0 < d {
      assert (d - d0) * n == d * n - d0 * n;
      MulPos(d - d0, n);
    }
  }

  /** Adding a multiple of n does not change a remainder. */
  lemma ModShift(a: int, q: int, n: int)
    requires n > 0
    ensures (a + q * n) % n == a % n
  {
    var p := a / n;
    assert a == p * n + a % n;
    assert a + q * n == (p + q) * n + a % n;
    ModUnique(a + q * n, n, p + q, a % n);
  }

  /** Scaling by a factor in [0, 1] does not increase a non-negative value. */
  lemma ScaleDown(a: real, f: real)
    requires 0.0 <= a && 0.0 <= f <= 1.0
    ensures 0.0 <= a * f <= a
  {
    assert a * f <= a * 1.0;
  }

  /** `Math.round`: the nearest integer, halves rounded up. */
  function MathRound(x: real): (r: int)
    ensures x - 0.5 < r as real <= x + 0.5
  {
    (x + 0.5).Floor
  }

  function Min(a: real, b: real): real { if a <= b then a else b }
  function Max(a: real, b: real): real { if a >= b then a else b }
  function MinInt(a: int, b: int): int { if a <= b then a else b }
  function MaxInt(a: int, b: int): int { if a >= b then a else b }

  /** `Math.min(hi, Math.max(lo, v))`. When hi < lo the upper bound wins. */
  function Clamp(v: real, lo: real, hi: real): (r: real)
    ensures lo <= hi ==> lo <= r <= hi
    ensures lo <= v <= hi ==> r == v
    ensures r <= hi
  {
    Min(hi, Max(lo, v))
  }

  /** The local `clamp(value, min, max)` of the evolution orchestrator: when
      `max < min` it returns `min`, otherwise it clamps. */
  function JsClamp(v: int, lo: int, hi: int): (r: int)
    ensures hi < lo ==> r == lo
    ensures lo <= hi ==> lo <= r <= hi
    ensures lo <= v <= hi ==> r == v
  {
    if hi < lo then lo else MinInt(hi, MaxInt(lo, v))
  }

  /** Multiplying by a non-negative factor keeps an order. */
  lemma MulLe(p: real, q: real, g: real)
    requires p <= q && 0.0 <= g
    ensures p * g <= q * g
  {
    assert q * g - p * g == (q - p) * g;
  }

  lemma ClampMono(x: real, y: real, lo: real, hi: real)
    requires x <= y
    ensures Clamp(x, lo, hi) <= Clamp(y, lo, hi)
  {
  }

  /** `clampNumber(value, min, max, fallback)`: a missing or non-finite value
      becomes `fallback`, any other is clamped. */
  function ClampNumber(v: Option<real>, lo: real, hi: real, fallback: real): (r: real)
    ensures v.None? ==> r == fallback
    ensures v.Some? && lo <= hi ==> lo <= r <= hi
    ensures v.Some? && lo <= v.value <= hi ==> r == v.value
  {
    match v
    case None => fallback
    case Some(x) => Clamp(x, lo, hi)
  }

  /** `clampInteger(value, min, max, fallback)`: rounds with `Math.round`
      before clamping. */
  function ClampInteger(v: Option<real>, lo: int, hi: int, fallback: int): (r: int)
    ensures v.None? ==> r == fallback
    ensures v.Some? && lo <= hi ==> lo <= r <= hi
    ensures v.Some? && lo <= MathRound(v.value) <= hi ==> r == MathRound(v.value)
  {
    match v
    case None => fallback
    case Some(x) => MinInt(hi, MaxInt(lo, MathRound(x)))
  }

  function Sum(xs: seq<real>): real {
    if xs == [] then 0.0 else Sum(xs[..|xs| - 1]) + xs[|xs| - 1]
  }

  /** `average(values)`: the arithmetic mean, 0 for no values. */
  function Average(xs: seq<real>): (r: real)
    ensures xs == [] ==> r == 0.0
  {
    if xs == [] then 0.0 else Sum(xs) / (|xs| as real)
  }

  /** A sum of terms in [lo, hi] lies between |xs|*lo and |xs|*hi. */
  lemma {:induction false} SumBounds(xs: seq<real>, lo: real, hi: real)
    requires forall i :: 0 <= i < |xs| ==> lo <= xs[i] <= hi
    ensures (|xs| as real) * lo <= Sum(xs) <= (|xs| as real) * hi
  {
    if xs != [] {
      SumBounds(xs[..|xs| - 1], lo, hi);
    }
  }

  /** The mean of terms in [lo, hi] lies in [lo, hi]. */
  lemma AverageBounds(xs: seq<real>, lo: real, hi: real)
    requires xs != []
    requires forall i :: 0 <= i < |xs| ==> lo <= xs[i] <= hi
    ensures lo <= Average(xs) <= hi
  {
    SumBounds(xs, lo, hi);
    var n := |xs| as real;
    assert n * lo <= Sum(xs) <= n * hi;
    assert Sum(xs) / n >= lo by {
      assert Sum(xs) >= n * lo;
    }
    assert Sum(xs) / n <= hi by {
      assert Sum(xs) <= n * hi;
    }
  }
}
