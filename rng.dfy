/** The seeded random source: Mulberry32 over a 32-bit state.

    The generator keeps its state as the unsigned 32-bit integer that
    `(state + c) >>> 0` produces; each draw adds the round constant modulo
    2^32. The output mixing works on the 32 bits of the new state with two
    xor-shift/multiply rounds and a final xor-shift, on the `bv32` word
    whose bits are those of the state (`Math.imul` is multiplication
    modulo 2^32, so the mix is exact `bv32` arithmetic). A draw is reported
    as the uint32 `x` that `(t ^ (t >>> 14)) >>> 0` yields; the float the
    source returns is `x / 2^32` (exact in a double), see `Unit`. */
module Random {
  import opened Wrappers
  import Text

  const Modulus: int := 0x1_0000_0000
  /** Added to the state on every draw. */
  const Increment: int := 0x6d2b79f5

  type Uint32 = x: int | 0 <= x < 0x1_0000_0000

  /** `state = (state + 0x6d2b79f5) >>> 0`. */
  function Advance(state: Uint32): Uint32 {
    (state + Increment) % Modulus
  }

  /** The width of a word. */
  const WordBits: nat := 32

  /** The low n bits of x as a word, least significant bit last. */
  function Bits(x: nat, n: nat): bv32
    requires n <= 32
  {
    if n == 0 then 0 else (Bits(x / 2, n - 1) << 1) | (if x % 2 == 1 then 1 else 0)
  }

  /** The 32-bit word whose binary digits are those of the uint32 x: the
      operand the bitwise operators of `random()` see. */
  function Word(x: Uint32): bv32 {
    Bits(x, WordBits)
  }

  /** The output mixing of `random()` applied to the already advanced
      state: its three statements, in order. `Math.imul` is `bv32`
      multiplication, `>>>` a logical shift. */
  function Mix(t: bv32): bv32 {
    MixStages(t, 3)
  }

  /** t after the first n statements of the mixing. */
  function MixStages(t: bv32, n: nat): bv32
    requires n <= 3
  {
    if n == 0 then t
    else
      var s := MixStages(t, n - 1);
      if n == 1 then (s ^ (s >> 15)) * (s | 1)
      else if n == 2 then s ^ (s + (s ^ (s >> 7)) * (s | 61))
      else s ^ (s >> 14)
  }

  /** The state after k draws from a generator seeded with `seed`. */
  function StateAfter(seed: Uint32, k: nat): Uint32 {
    if k == 0 then seed else Advance(StateAfter(seed, k - 1))
  }

  /** The value `random()` returns once the state has been advanced to x. */
  function Output(x: Uint32): Uint32 {
    Mix(Word(x)) as int
  }

  /** The (k+1)-th value a generator seeded with `from` returns: a function
      of the seed and the number of earlier draws only (see `DrawIsOutput`). */
  function Draw(from: Uint32, k: nat): Uint32
    decreases k
  {
    if k == 0 then Output(Advance(from)) else Draw(Advance(from), k - 1)
  }

  /** Seeding with the advanced state skips one draw. */
  lemma {:induction false} StateAfterShift(s: Uint32, k: nat)
    ensures StateAfter(Advance(s), k) == StateAfter(s, k + 1)
  {
    if k > 0 {
      StateAfterShift(s, k - 1);
    }
  }

  /** The (k+1)-th draw mixes the state after k+1 advances. */
  lemma {:induction false} DrawIsOutput(s: Uint32, k: nat)
    decreases k
    ensures Draw(s, k) == Output(StateAfter(s, k + 1))
  {
    if k > 0 {
      DrawIsOutput(Advance(s), k - 1);
      StateAfterShift(s, k);
    }
  }

  /** The n values drawn after the first `start` ones: what a caller that
      makes n draws from a generator in state `StateAfter(seed, start)` sees. */
  function Window(seed: Uint32, start: nat, n: nat): (r: seq<Uint32>)
    ensures |r| == n
  {
    if n == 0 then [] else Window(seed, start, n - 1) + [Draw(seed, start + n - 1)]
  }

  lemma ShiftMod(x: int, q: int)
    ensures (x + q * Modulus) % Modulus == x % Modulus
  {
    var r := x % Modulus;
    var p := x / Modulus;
    assert x == p * Modulus + r;
    assert x + q * Modulus == (p + q) * Modulus + r;
  }

  lemma ModAdd(a: int, c: int)
    ensures (a % Modulus + c) % Modulus == (a + c) % Modulus
  {
    ShiftMod(a % Modulus + c, a / Modulus);
    assert a % Modulus + c + (a / Modulus) * Modulus == a + c;
  }

  /** After k draws the state is seed + k * 0x6d2b79f5 modulo 2^32. */
  lemma {:induction false} StateAfterClosedForm(seed: Uint32, k: nat)
    ensures StateAfter(seed, k) == (seed + k * Increment) % Modulus
  {
    if k > 0 {
      StateAfterClosedForm(seed, k - 1);
      ModAdd(seed + (k - 1) * Increment, Increment);
      assert seed + (k - 1) * Increment + Increment == seed + k * Increment;
    }
  }

  /** The state cycles with period 2^32 in the number of draws. */
  lemma StatePeriod(seed: Uint32, k: nat)
    ensures StateAfter(seed, k + Modulus) == StateAfter(seed, k)
  {
    StateAfterClosedForm(seed, k + Modulus);
    StateAfterClosedForm(seed, k);
    assert seed + (k + Modulus) * Increment == (seed + k * Increment) + Increment * Modulus;
    ShiftMod(seed + k * Increment, Increment);
  }

  /** So does the stream of values. */
  lemma StreamPeriod(seed: Uint32, k: nat)
    ensures Draw(seed, k + Modulus) == Draw(seed, k)
  {
    DrawIsOutput(seed, k);
    DrawIsOutput(seed, k + Modulus);
    StatePeriod(seed, k + 1);
  }

  /** What `next()` returns for the draw x: `x / 4294967296`. */
  function Unit(x: Uint32): (r: real)
    ensures 0.0 <= r < 1.0
  {
    x as real / 4294967296.0
  }

  /** `Math.floor(u / 2^32 * (max - min + 1)) + min`, computed exactly. */
  function FromDraw(x: Uint32, min: int, max: int): (r: int)
    ensures min <= max ==> min <= r <= max
  {
    var n := max - min + 1;
    if n > 0 then FloorScaledBounds(x, n); (x * n) / Modulus + min
    else (x * n) / Modulus + min
  }

  lemma FloorScaledBounds(u: Uint32, n: int)
    requires n > 0
    ensures 0 <= (u * n) / Modulus < n
  {
    assert 0 <= u * n;
    assert u * n < Modulus * n by {
      assert u < Modulus;
    }
  }

  /** `toUint32(value)`: `value >>> 0` on an integer. */
  function ToUint32(v: int): (r: Uint32)
    ensures 0 <= v < Modulus ==> r == v
    ensures (r - v) % Modulus == 0
  {
    var r := v % Modulus;
    assert r - v == -(v / Modulus) * Modulus;
    r
  }

  /** What the caller passes as a seed. */
  datatype SeedInput =
    | IntSeed(n: int)        // a number with `Number.isInteger`
    | TextSeed(text: string) // anything else, as `String(seedInput)` shows it
    | NoSeed                 // `undefined` or `null`

  predicate IsDigit(c: char) { '0' <= c <= '9' }

  /** The longest prefix of decimal digits. */
  function DigitPrefix(s: string): (r: string)
    ensures |r| <= |s| && r == s[..|r|]
    ensures forall i :: 0 <= i < |r| ==> IsDigit(r[i])
    ensures |r| < |s| ==> !IsDigit(s[|r|])
  {
    if s != [] && IsDigit(s[0]) then [s[0]] + DigitPrefix(s[1..]) else []
  }

  function DigitsValue(ds: string): (n: nat)
    requires forall i :: 0 <= i < |ds| ==> IsDigit(ds[i])
  {
    if ds == [] then 0
    else
      var digit := ds[|ds| - 1] as int - '0' as int;
      assert IsDigit(ds[|ds| - 1]);
      DigitsValue(ds[..|ds| - 1]) * 10 + digit
  }

  /** `Number.parseInt(s, 10)`: skip leading white space, take an optional
      sign and the longest run of digits; no digits is `NaN` (None). */
  function ParseInt(s: string): (r: Option<int>)
    ensures r.None? <==> DigitPrefix(SignFree(Text.TrimStart(s))) == []
  {
    var t := Text.TrimStart(s);
    var negative := t != [] && t[0] == '-';
    var ds := DigitPrefix(SignFree(t));
    if ds == [] then None
    else
      var magnitude: int := DigitsValue(ds);
      Some(if negative then -magnitude else magnitude)
  }

  function SignFree(t: string): string {
    if t != [] && (t[0] == '-' || t[0] == '+') then t[1..] else t
  }

  /** The decimal digits `String(n)` writes for a natural number read back
      as that number. */
  lemma {:induction false} DigitsValueOfNatToString(n: nat)
    ensures DigitsValue(Text.NatToString(n)) == n
    decreases n
  {
    var s := Text.NatToString(n);
    if n >= 10 {
      DigitsValueOfNatToString(n / 10);
      assert s[..|s| - 1] == Text.NatToString(n / 10);
    }
  }

  /** Distinct natural numbers are written differently. */
  lemma NatToStringInjective(m: nat, n: nat)
    requires Text.NatToString(m) == Text.NatToString(n)
    ensures m == n
  {
    DigitsValueOfNatToString(m);
    DigitsValueOfNatToString(n);
  }

  /** A string that is a nonempty run of digits. */
  predicate AllDigits(ds: string) {
    ds != [] && forall i :: 0 <= i < |ds| ==> IsDigit(ds[i])
  }

  /** A nonempty run of digits parses to its value. */
  lemma ParseIntOfDigits(ds: string)
    requires AllDigits(ds)
    ensures ParseInt(ds) == Some(DigitsValue(ds) as int)
  {
    assert DigitPrefix(SignFree(Text.TrimStart(ds))) == ds by {
      assert IsDigit(ds[0]);
      assert Text.TrimStart(ds) == ds by { assert Text.ContentStart(ds, 0) == 0; }
    }
  }

  /** A minus sign before a nonempty run of digits negates its value. */
  lemma ParseIntOfNegatedDigits(ds: string)
    requires AllDigits(ds)
    ensures ParseInt("-" + ds) == Some(-(DigitsValue(ds) as int))
  {
    var t := "-" + ds;
    assert Text.TrimStart(t) == t by { assert Text.ContentStart(t, 0) == 0; }
    assert DigitPrefix(SignFree(t)) == ds by { assert SignFree(t) == ds; }
  }

  /** `parseInt(String(n), 10)` is n. */
  lemma ParseIntOfNatToString(n: nat)
    ensures ParseInt(Text.NatToString(n)) == Some(n as int)
  {
    var s := Text.NatToString(n);
    DigitsValueOfNatToString(n);
    ParseIntOfDigits(s);
  }

  /** A text seed holding the decimal digits of n seeds the generator
      exactly as the number n does. */
  lemma TextSeedOfDigits(n: nat, now: int)
    ensures NormalizeSeed(TextSeed(Text.NatToString(n)), now) == NormalizeSeed(IntSeed(n), now)
  {
    ParseIntOfNatToString(n);
  }

  /** `normalizeSeed(seedInput)`; `now` is the `Date.now()` the source reads
      when the input has no integer in it. */
  function NormalizeSeed(input: SeedInput, now: int): (seed: Uint32)
    ensures input.IntSeed? ==> seed == ToUint32(input.n)
    ensures input.NoSeed? ==> seed == ToUint32(now)
    ensures input.TextSeed? ==>
      seed == (if ParseInt(input.text).Some? then ToUint32(ParseInt(input.text).value) else ToUint32(now))
  {
    match input
    case IntSeed(n) => ToUint32(n)
    case TextSeed(text) =>
      var parsed := ParseInt(text);
      if parsed.Some? then ToUint32(parsed.value) else ToUint32(now)
    case NoSeed => ToUint32(now)
  }

  /** The object `createSeededRng` returns, with `next` as a method that
      overwrites the captured state. */
  class Rng {
    /** The normalized seed, as the `seed` field of the source's object. */
    const seed: Uint32
    var state: Uint32
    /** How many values have been drawn so far. */
    ghost var draws: nat

    ghost predicate Valid()
      reads this
    {
      state == StateAfter(seed, draws)
    }

    /** `createSeededRng(seedInput)`. */
    constructor (input: SeedInput, now: int)
      ensures Valid()
      ensures seed == NormalizeSeed(input, now) && draws == 0
    {
      seed := NormalizeSeed(input, now);
      state := NormalizeSeed(input, now);
      draws := 0;
    }

    /** `next()`: advance the state by the round constant and return the mix
        of the new state, as the uint32 u with the float being `Unit(u)`. */
    method Next() returns (u: Uint32)
      requires Valid()
      modifies this
      ensures Valid() && draws == old(draws) + 1
      ensures state == Advance(old(state))
      ensures u == Draw(seed, old(draws))
    {
      state := Advance(state);
      draws := draws + 1;
      u := Output(state);
      DrawIsOutput(seed, old(draws));
    }

    /** `rng() < p`, the way every caller turns one draw into a coin with
        probability p. */
    method Chance(p: real) returns (hit: bool)
      requires Valid()
      modifies this
      ensures Valid() && draws == old(draws) + 1
      ensures hit <==> Unit(Draw(seed, old(draws))) < p
      ensures p <= 0.0 ==> !hit
      ensures p >= 1.0 ==> hit
    {
      var u := Next();
      hit := Unit(u) < p;
    }

    /** `int(min, max)`: one draw scaled to the integers of [min, max]. */
    method Int(min: int, max: int) returns (r: int)
      requires Valid()
      modifies this
      ensures Valid() && draws == old(draws) + 1
      ensures r == FromDraw(Draw(seed, old(draws)), min, max)
      ensures min <= max ==> min <= r <= max
    {
      var u := Next();
      r := FromDraw(u, min, max);
    }

    /** `pick(list)`: nothing (and no draw) for an empty list, otherwise the
        element at `int(0, length - 1)`. */
    method Pick<T>(list: seq<T>) returns (r: Option<T>)
      requires Valid()
      modifies this
      ensures Valid()
      ensures list == [] ==> r.None? && draws == old(draws)
      ensures list != [] ==> draws == old(draws) + 1 && r.Some? && r.value in list
      ensures list != [] ==> r.value == list[FromDraw(Draw(seed, old(draws)), 0, |list| - 1)]
    {
      if list == [] {
        r := None;
      } else {
        var i := Int(0, |list| - 1);
        r := Some(list[i]);
      }
    }
  }

  /** n consecutive calls of `next()`, collected in order. */
  method Draws(rng: Rng, n: nat) returns (us: seq<Uint32>)
    requires rng.Valid()
    modifies rng
    ensures rng.Valid() && rng.draws == old(rng.draws) + n
    ensures us == Window(rng.seed, old(rng.draws), n)
  {
    ghost var start := rng.draws;
    us := [];
    while |us| < n
      invariant rng.Valid() && rng.draws == start + |us| && |us| <= n
      invariant us == Window(rng.seed, start, |us|)
      decreases n - |us|
    {
      var u := rng.Next();
      us := us + [u];
    }
  }

  /** Two generators built from the same seed input return the same values
      in the same order, namely `Window(seed, 0, count)`: drawing from one
      leaves the other untouched. */
  method TwinStreams(input: SeedInput, now: int, count: nat) returns (xs: seq<Uint32>, ys: seq<Uint32>)
    ensures xs == ys == Window(NormalizeSeed(input, now), 0, count)
  {
    var a := new Rng(input, now);
    var b := new Rng(input, now);
    xs := Draws(a, count);
    ys := Draws(b, count);
  }
}
