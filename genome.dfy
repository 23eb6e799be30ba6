/** The genome algebra: eight numeric traits, their normal form, random
    initialisation, crossover and mutation.

    A genome in normal form (`Genome`) has integer `lines` and `lineLen`
    and six unit traits on the 0.001 grid. Before normalisation a genome
    is a bag of arbitrary JavaScript numbers (`RawGenome`), any of which may
    be missing or non-finite. */
module Genomes {
  import opened Wrappers
  import opened Numeric
  import opened Random
  import Text

  const MinLines := 4
  const MaxLines := 16
  const MinLineLen := 8
  const MaxLineLen := 24
  /** The largest allowed `assertiveness + afterglow` before rounding. */
  const AssertiveAfterglowCap: real := 1.2

  /** The number of traits, in `GENOME_FIELDS` order: lines, lineLen,
      assertiveness, afterglow, concreteness, repetition, nutrientMix,
      immunity. */
  const FieldCount := 8

  datatype Genome = Genome(
    lines: int,
    lineLen: int,
    assertiveness: real,
    afterglow: real,
    concreteness: real,
    repetition: real,
    nutrientMix: real,
    immunity: real)

  /** A JavaScript number: finite, or NaN / an infinity / `undefined`. */
  datatype Num = Finite(value: real) | NonFinite

  datatype RawGenome = RawGenome(
    lines: Num,
    lineLen: Num,
    assertiveness: Num,
    afterglow: Num,
    concreteness: Num,
    repetition: Num,
    nutrientMix: Num,
    immunity: Num)
  {
    /** `genome[GENOME_FIELDS[i]]`. */
    function Get(i: nat): Num
      requires i < FieldCount
    {
      match i
      case 0 => lines
      case 1 => lineLen
      case 2 => assertiveness
      case 3 => afterglow
      case 4 => concreteness
      case 5 => repetition
      case 6 => nutrientMix
      case _ => immunity
    }

    /** `genome[GENOME_FIELDS[i]] = v`. */
    function With(i: nat, v: Num): (r: RawGenome)
      requires i < FieldCount
      ensures r.Get(i) == v
      ensures forall j :: 0 <= j < FieldCount && j != i ==> r.Get(j) == Get(j)
    {
      match i
      case 0 => this.(lines := v)
      case 1 => this.(lineLen := v)
      case 2 => this.(assertiveness := v)
      case 3 => this.(afterglow := v)
      case 4 => this.(concreteness := v)
      case 5 => this.(repetition := v)
      case 6 => this.(nutrientMix := v)
      case _ => this.(immunity := v)
    }
  }

  /** Two raw genomes that agree on every field are equal. */
  lemma RawExtensional(a: RawGenome, b: RawGenome)
    requires forall i :: 0 <= i < FieldCount ==> a.Get(i) == b.Get(i)
    ensures a == b
  {
    assert a.Get(0) == b.Get(0) && a.Get(1) == b.Get(1) && a.Get(2) == b.Get(2);
    assert a.Get(3) == b.Get(3) && a.Get(4) == b.Get(4) && a.Get(5) == b.Get(5);
    assert a.Get(6) == b.Get(6) && a.Get(7) == b.Get(7);
  }

  /** A normal-form genome seen as plain numbers. */
  function ToRaw(g: Genome): RawGenome {
    RawGenome(Finite(g.lines as real), Finite(g.lineLen as real), Finite(g.assertiveness),
      Finite(g.afterglow), Finite(g.concreteness), Finite(g.repetition),
      Finite(g.nutrientMix), Finite(g.immunity))
  }

  ghost predicate UnitOnGrid(x: real) {
    0.0 <= x <= 1.0 && OnGrid(x)
  }

  /** What `normalizeGenome` guarantees of every genome it returns. */
  ghost predicate Normalized(g: Genome) {
    && MinLines <= g.lines <= MaxLines
    && MinLineLen <= g.lineLen <= MaxLineLen
    && UnitOnGrid(g.assertiveness) && UnitOnGrid(g.afterglow)
    && UnitOnGrid(g.concreteness) && UnitOnGrid(g.repetition)
    && UnitOnGrid(g.nutrientMix) && UnitOnGrid(g.immunity)
    && g.assertiveness + g.afterglow <= AssertiveAfterglowCap + 0.001
  }

  /** `clampInt(value, min, max)`: a non-finite value becomes `min`, any
      other is rounded with `Math.round` and clamped. */
  function ClampInt(v: Num, lo: int, hi: int): (r: int)
    requires lo <= hi
    ensures lo <= r <= hi
    ensures v.NonFinite? ==> r == lo
    ensures v.Finite? && lo <= MathRound(v.value) <= hi ==> r == MathRound(v.value)
  {
    match v
    case NonFinite => lo
    case Finite(x) => MinInt(hi, MaxInt(lo, MathRound(x)))
  }

  /** `clampUnit(value)`: a non-finite value becomes 0, any other is
      clamped into [0, 1]. */
  function ClampUnit(v: Num): (r: real)
    ensures 0.0 <= r <= 1.0
    ensures v.NonFinite? ==> r == 0.0
    ensures v.Finite? && 0.0 <= v.value <= 1.0 ==> r == v.value
  {
    match v
    case NonFinite => 0.0
    case Finite(x) => Clamp(x, 0.0, 1.0)
  }

  /** The `assertiveness`/`afterglow` pair after the cap, before the final
      rounding: above the cap both are scaled by `1.2 / sum`, so their sum
      becomes exactly 1.2 and their ratio is kept. */
  function CapPair(a: real, b: real): (r: (real, real))
    requires 0.0 <= a && 0.0 <= b
    ensures a + b <= AssertiveAfterglowCap ==> r == (a, b)
    ensures a + b > AssertiveAfterglowCap ==>
      r.0 + r.1 == AssertiveAfterglowCap && r.0 * b == r.1 * a && 0.0 <= r.0 <= a && 0.0 <= r.1 <= b
  {
    var sum := a + b;
    if sum > AssertiveAfterglowCap then
      var ratio := AssertiveAfterglowCap / sum;
      ScaledPair(a, b, ratio);
      (a * ratio, b * ratio)
    else (a, b)
  }

  lemma ScaledPair(a: real, b: real, ratio: real)
    requires 0.0 <= a && 0.0 <= b && a + b > AssertiveAfterglowCap
    requires ratio == AssertiveAfterglowCap / (a + b)
    ensures a * ratio + b * ratio == AssertiveAfterglowCap
    ensures (a * ratio) * b == (b * ratio) * a
    ensures 0.0 <= a * ratio <= a && 0.0 <= b * ratio <= b
  {
    var sum := a + b;
    assert sum * ratio == AssertiveAfterglowCap;
    assert a * ratio + b * ratio == sum * ratio;
    assert 0.0 < ratio < 1.0;
    assert (a * ratio) * b == (b * ratio) * a;
    assert a * ratio <= a * 1.0;
    assert b * ratio <= b * 1.0;
  }

  /** `round(clampUnit(value))`: one of the six unit traits in normal form. */
  function RoundUnit(v: Num): (r: real)
    ensures UnitOnGrid(r)
    ensures v.NonFinite? ==> r == 0.0
    ensures v.Finite? && UnitOnGrid(v.value) ==> r == v.value
  {
    var x := ClampUnit(v);
    UnitRounds(x);
    ZeroRounds();
    GridRounds(v);
    Round3(x)
  }

  lemma GridRounds(v: Num)
    ensures v.Finite? && UnitOnGrid(v.value) ==> Round3(ClampUnit(v)) == v.value
  {
    if v.Finite? && UnitOnGrid(v.value) {
      Round3OnGrid(v.value);
    }
  }

  /** The `assertiveness`/`afterglow` pair in normal form, from the clamped
      values: capped and rounded twice. The second rounding changes
      nothing, so each value is its capped value rounded once; the sum can
      exceed the cap by at most 0.001. */
  function CapRound(a: real, b: real): (r: (real, real))
    requires 0.0 <= a <= 1.0 && 0.0 <= b <= 1.0
    ensures UnitOnGrid(r.0) && UnitOnGrid(r.1)
    ensures r.0 + r.1 <= AssertiveAfterglowCap + 0.001
    ensures a + b <= AssertiveAfterglowCap ==> r == (Round3(a), Round3(b))
    ensures a + b > AssertiveAfterglowCap ==> r == (Round3(CapPair(a, b).0), Round3(CapPair(a, b).1))
    ensures a == 0.0 ==> r.0 == 0.0
    ensures b == 0.0 ==> r.1 == 0.0
  {
    var capped := CapPair(a, b);
    var a1 := if a + b > AssertiveAfterglowCap then Round3(capped.0) else a;
    var b1 := if a + b > AssertiveAfterglowCap then Round3(capped.1) else b;
    CappedSumBound(a, b);
    UnitRounds(a1);
    UnitRounds(b1);
    ZeroRounds();
    Round3Idempotent(capped.0);
    Round3Idempotent(capped.1);
    (Round3(a1), Round3(b1))
  }

  /** `normalizeGenome(genome)`. */
  function NormalizeGenome(raw: RawGenome): (g: Genome)
    ensures Normalized(g)
    ensures raw.lines.NonFinite? ==> g.lines == MinLines
    ensures raw.lineLen.NonFinite? ==> g.lineLen == MinLineLen
    ensures raw.assertiveness.NonFinite? ==> g.assertiveness == 0.0
    ensures raw.afterglow.NonFinite? ==> g.afterglow == 0.0
    ensures raw.concreteness.NonFinite? ==> g.concreteness == 0.0
    ensures raw.repetition.NonFinite? ==> g.repetition == 0.0
    ensures raw.nutrientMix.NonFinite? ==> g.nutrientMix == 0.0
    ensures raw.immunity.NonFinite? ==> g.immunity == 0.0
  {
    var pair := CapRound(ClampUnit(raw.assertiveness), ClampUnit(raw.afterglow));
    Genome(
      ClampInt(raw.lines, MinLines, MaxLines),
      ClampInt(raw.lineLen, MinLineLen, MaxLineLen),
      pair.0, pair.1,
      RoundUnit(raw.concreteness),
      RoundUnit(raw.repetition),
      RoundUnit(raw.nutrientMix),
      RoundUnit(raw.immunity))
  }

  /** Rounding keeps a unit value a unit value. */
  lemma UnitRounds(x: real)
    requires 0.0 <= x <= 1.0
    ensures UnitOnGrid(Round3(x))
  {
    IntOnGrid(0);
    IntOnGrid(1);
    Round3Within(x, 0.0, 1.0);
  }

  /** Whichever branch the cap takes, the rounded pair stays in [0, 1] and
      its final sum is at most 0.001 over the cap. */
  lemma CappedSumBound(a: real, b: real)
    requires 0.0 <= a <= 1.0 && 0.0 <= b <= 1.0
    ensures var capped := CapPair(a, b);
      var a1 := if a + b > AssertiveAfterglowCap then Round3(capped.0) else a;
      var b1 := if a + b > AssertiveAfterglowCap then Round3(capped.1) else b;
      0.0 <= a1 <= 1.0 && 0.0 <= b1 <= 1.0 && Round3(a1) + Round3(b1) <= AssertiveAfterglowCap + 0.001
  {
    var capped := CapPair(a, b);
    if a + b > AssertiveAfterglowCap {
      UnitRounds(capped.0);
      UnitRounds(capped.1);
      Round3Idempotent(capped.0);
      Round3Idempotent(capped.1);
    }
  }

  /** Normalisation leaves a genome alone when it is already in range, on
      the grid and within the cap. */
  lemma NormalizeIdentity(g: Genome)
    requires MinLines <= g.lines <= MaxLines && MinLineLen <= g.lineLen <= MaxLineLen
    requires UnitOnGrid(g.assertiveness) && UnitOnGrid(g.afterglow)
    requires UnitOnGrid(g.concreteness) && UnitOnGrid(g.repetition)
    requires UnitOnGrid(g.nutrientMix) && UnitOnGrid(g.immunity)
    requires g.assertiveness + g.afterglow <= AssertiveAfterglowCap
    ensures NormalizeGenome(ToRaw(g)) == g
  {
    MathRoundInt(g.lines);
    MathRoundInt(g.lineLen);
    Round3OnGrid(g.assertiveness);
    Round3OnGrid(g.afterglow);
    Round3OnGrid(g.concreteness);
    Round3OnGrid(g.repetition);
    Round3OnGrid(g.nutrientMix);
    Round3OnGrid(g.immunity);
  }

  lemma MathRoundInt(n: int)
    ensures MathRound(n as real) == n
  {
    assert (n as real + 0.5).Floor == n;
  }

  /** The cap can be overshot by rounding: a pair scaled to 0.6005 and
      0.5995 rounds to 0.601 and 0.600, whose sum is 1.201. */
  lemma NormalizeOvershoot()
    ensures var g := NormalizeGenome(RawGenome(Finite(8.0), Finite(12.0), Finite(0.90075),
      Finite(0.89925), Finite(0.5), Finite(0.5), Finite(0.5), Finite(0.5)));
      g.assertiveness == 0.601 && g.afterglow == 0.6 && g.assertiveness + g.afterglow == 1.201
  {
    var capped := CapPair(0.90075, 0.89925);
    assert capped == (0.6005, 0.5995);
    assert Round3(0.6005) == 0.601 by {
      assert (0.6005 * 1000.0 + 0.5).Floor == 601;
    }
    assert Round3(0.5995) == 0.6 by {
      assert (0.5995 * 1000.0 + 0.5).Floor == 600;
    }
    Round3OnGrid(0.601);
    Round3OnGrid(0.6);
  }

  /** `rng() < 0.5` in `crossoverGenomes`: the left parent's value is kept. */
  predicate TakeLeft(u: Uint32) {
    Unit(u) < 0.5
  }

  /** The value the child gets for trait i. */
  function Choose(left: RawGenome, right: RawGenome, u: Uint32, i: nat): Num
    requires i < FieldCount
  {
    if TakeLeft(u) then left.Get(i) else right.Get(i)
  }

  /** The child `crossoverGenomes` builds before normalising it, given the
      eight draws it makes (one per trait, in `GENOME_FIELDS` order). */
  function CrossChild(left: RawGenome, right: RawGenome, us: seq<Uint32>): (c: RawGenome)
    requires |us| == FieldCount
    ensures forall i :: 0 <= i < FieldCount ==>
      c.Get(i) == (if TakeLeft(us[i]) then left.Get(i) else right.Get(i))
  {
    FromFields(seq(FieldCount, i requires 0 <= i < FieldCount => Choose(left, right, us[i], i)))
  }

  /** The raw genome whose traits, in `GENOME_FIELDS` order, are vs. */
  function FromFields(vs: seq<Num>): (r: RawGenome)
    requires |vs| == FieldCount
    ensures forall i :: 0 <= i < FieldCount ==> r.Get(i) == vs[i]
  {
    RawGenome(vs[0], vs[1], vs[2], vs[3], vs[4], vs[5], vs[6], vs[7])
  }

  /** Crossing a normal-form genome with itself gives it back, whatever the
      draws. */
  lemma CrossSelf(g: Genome, us: seq<Uint32>)
    requires |us| == FieldCount
    requires Normalized(g) && g.assertiveness + g.afterglow <= AssertiveAfterglowCap
    ensures NormalizeGenome(CrossChild(ToRaw(g), ToRaw(g), us)) == g
  {
    RawExtensional(CrossChild(ToRaw(g), ToRaw(g), us), ToRaw(g));
    NormalizeIdentity(g);
  }

  /** The loop of `crossoverGenomes`: one draw per trait, in
      `GENOME_FIELDS` order, choosing the left or the right parent's value. */
  method CrossFields(left: RawGenome, right: RawGenome, rng: Rng) returns (child: RawGenome)
    requires rng.Valid()
    modifies rng
    ensures rng.Valid() && rng.draws == old(rng.draws) + FieldCount
    ensures child == CrossChild(left, right, Window(rng.seed, old(rng.draws), FieldCount))
  {
    ghost var start := rng.draws;
    var vs: seq<Num> := [];
    ghost var us: seq<Uint32> := [];
    for i := 0 to FieldCount
      invariant rng.Valid() && rng.draws == start + i
      invariant us == Window(rng.seed, start, i) && |vs| == i
      invariant forall j :: 0 <= j < i ==> vs[j] == Choose(left, right, us[j], j)
    {
      var u := rng.Next();
      us := us + [u];
      vs := vs + [Choose(left, right, u, i)];
    }
    assert vs == seq(FieldCount, i requires 0 <= i < FieldCount => Choose(left, right, us[i], i));
    child := FromFields(vs);
  }

  /** `crossoverGenomes(left, right, rng)`. */
  method Crossover(left: Genome, right: Genome, rng: Rng) returns (child: Genome)
    requires rng.Valid()
    modifies rng
    ensures rng.Valid() && rng.draws == old(rng.draws) + FieldCount
    ensures child == NormalizeGenome(CrossChild(ToRaw(left), ToRaw(right), Window(rng.seed, old(rng.draws), FieldCount)))
  {
    var raw := CrossFields(ToRaw(left), ToRaw(right), rng);
    child := NormalizeGenome(raw);
  }

  /** `randomUnit(rng)`: a draw rounded to three decimals. */
  function RandomUnit(u: Uint32): (r: real)
    ensures UnitOnGrid(r)
  {
    UnitRounds(Unit(u));
    Round3(Unit(u))
  }

  /** `randomSigned(span, rng)`: a draw spread over [-span, span). */
  function RandomSigned(u: Uint32, span: real): (r: real)
    ensures span >= 0.0 ==> -span <= r <= span
  {
    var x := Unit(u) * 2.0 - 1.0;
    assert -1.0 <= x < 1.0;
    assert span >= 0.0 ==> -span <= x * span <= span by {
      if span >= 0.0 {
        assert x * span <= 1.0 * span;
        assert x * span >= -1.0 * span;
      }
    }
    x * span
  }

  /** The genome `createRandomGenome` builds from its eight draws. */
  function RandomGenome(us: seq<Uint32>): (g: Genome)
    requires |us| == FieldCount
    ensures Normalized(g)
    ensures g.lines == FromDraw(us[0], MinLines, MaxLines)
    ensures g.lineLen == FromDraw(us[1], MinLineLen, MaxLineLen)
    ensures g.concreteness == RandomUnit(us[4]) && g.repetition == RandomUnit(us[5])
    ensures g.nutrientMix == RandomUnit(us[6]) && g.immunity == RandomUnit(us[7])
  {
    var lines := FromDraw(us[0], MinLines, MaxLines);
    var lineLen := FromDraw(us[1], MinLineLen, MaxLineLen);
    var raw := RawGenome(Finite(lines as real), Finite(lineLen as real),
      Finite(RandomUnit(us[2])), Finite(RandomUnit(us[3])), Finite(RandomUnit(us[4])),
      Finite(RandomUnit(us[5])), Finite(RandomUnit(us[6])), Finite(RandomUnit(us[7])));
    MathRoundInt(lines);
    MathRoundInt(lineLen);
    Round3OnGrid(RandomUnit(us[4]));
    Round3OnGrid(RandomUnit(us[5]));
    Round3OnGrid(RandomUnit(us[6]));
    Round3OnGrid(RandomUnit(us[7]));
    NormalizeGenome(raw)
  }

  /** `createRandomGenome(rng)`: eight draws, one per trait, in
      `GENOME_FIELDS` order. */
  method CreateRandomGenome(rng: Rng) returns (g: Genome)
    requires rng.Valid()
    modifies rng
    ensures rng.Valid() && rng.draws == old(rng.draws) + FieldCount
    ensures g == RandomGenome(Window(rng.seed, old(rng.draws), FieldCount))
  {
    var us := Draws(rng, FieldCount);
    g := RandomGenome(us);
  }

  /** One integer trait of `mutateGenome` read off the stream from draw
      `at`: the mutated value and the index of the next unread draw. */
  function MutatedInt(x: int, rate: real, lo: int, hi: int, seed: Uint32, at: nat): (r: (int, nat))
    requires lo <= hi
    ensures r.1 == at + 1 || r.1 == at + 2
    ensures r.0 == x || lo <= r.0 - x <= hi
    ensures rate <= 0.0 ==> r == (x, at + 1)
  {
    if Unit(Draw(seed, at)) < rate then (x + FromDraw(Draw(seed, at + 1), lo, hi), at + 2) else (x, at + 1)
  }

  /** One unit trait of `mutateGenome` read off the stream from draw `at`. */
  function MutatedReal(x: real, rate: real, span: real, seed: Uint32, at: nat): (r: (real, nat))
    ensures r.1 == at + 1 || r.1 == at + 2
    ensures span >= 0.0 ==> -span <= r.0 - x <= span
    ensures rate <= 0.0 ==> r == (x, at + 1)
  {
    if Unit(Draw(seed, at)) < rate then (x + RandomSigned(Draw(seed, at + 1), span), at + 2) else (x, at + 1)
  }

  /** The genome `mutateGenome` builds before normalising it, from the
      stream starting at draw `at`, traits in `GENOME_FIELDS` order, and the
      index of the next unread draw. */
  function MutatedRaw(genome: Genome, rate: real, strength: real, seed: Uint32, at: nat): (r: (RawGenome, nat))
    ensures at + FieldCount <= r.1 <= at + 2 * FieldCount
    ensures IntStep(genome.lines as real, r.0.lines, -2, 2)
    ensures IntStep(genome.lineLen as real, r.0.lineLen, -3, 3)
    ensures strength >= 0.0 ==>
      && RealStep(genome.assertiveness, r.0.assertiveness, strength)
      && RealStep(genome.afterglow, r.0.afterglow, strength)
      && RealStep(genome.concreteness, r.0.concreteness, strength)
      && RealStep(genome.repetition, r.0.repetition, strength * 0.8)
      && RealStep(genome.nutrientMix, r.0.nutrientMix, strength)
      && RealStep(genome.immunity, r.0.immunity, strength * 0.7)
    ensures rate <= 0.0 ==> r == (ToRaw(genome), at + FieldCount)
  {
    var l := MutatedInt(genome.lines, rate, -2, 2, seed, at);
    var n := MutatedInt(genome.lineLen, rate, -3, 3, seed, l.1);
    var a := MutatedReal(genome.assertiveness, rate, strength, seed, n.1);
    var f := MutatedReal(genome.afterglow, rate, strength, seed, a.1);
    var c := MutatedReal(genome.concreteness, rate, strength, seed, f.1);
    var p := MutatedReal(genome.repetition, rate, strength * 0.8, seed, c.1);
    var m := MutatedReal(genome.nutrientMix, rate, strength, seed, p.1);
    var i := MutatedReal(genome.immunity, rate, strength * 0.7, seed, m.1);
    IntStepInt(genome.lines, l.0 - genome.lines);
    IntStepInt(genome.lineLen, n.0 - genome.lineLen);
    (RawGenome(Finite(l.0 as real), Finite(n.0 as real), Finite(a.0), Finite(f.0), Finite(c.0),
      Finite(p.0), Finite(m.0), Finite(i.0)), i.1)
  }

  /** An integer offset in [lo, hi] added to a trait. */
  ghost predicate IntStep(before: real, after: Num, lo: int, hi: int) {
    after.Finite? && (after.value - before).Floor as real == after.value - before
    && lo as real <= after.value - before <= hi as real
  }

  /** A real offset of size at most `span` added to a trait. */
  ghost predicate RealStep(before: real, after: Num, span: real) {
    after.Finite? && -span <= after.value - before <= span
  }

  /** One integer trait of `mutateGenome`: a draw below `rate` adds
      `randomInt(lo, hi)`, which costs a second draw. */
  method MutateInt(x: int, rate: real, lo: int, hi: int, rng: Rng) returns (y: int)
    requires lo <= hi
    requires rng.Valid()
    modifies rng
    ensures rng.Valid()
    ensures Unit(Draw(rng.seed, old(rng.draws))) < rate ==>
      y == x + FromDraw(Draw(rng.seed, old(rng.draws) + 1), lo, hi) && rng.draws == old(rng.draws) + 2
    ensures !(Unit(Draw(rng.seed, old(rng.draws))) < rate) ==> y == x && rng.draws == old(rng.draws) + 1
    ensures (y, rng.draws) == MutatedInt(x, rate, lo, hi, rng.seed, old(rng.draws))
  {
    y := x;
    var u := rng.Next();
    if Unit(u) < rate {
      var d := rng.Int(lo, hi);
      y := x + d;
    }
  }

  /** One unit trait of `mutateGenome`: a draw below `rate` adds
      `randomSigned(span)`, which costs a second draw. */
  method MutateReal(x: real, rate: real, span: real, rng: Rng) returns (y: real)
    requires rng.Valid()
    modifies rng
    ensures rng.Valid()
    ensures Unit(Draw(rng.seed, old(rng.draws))) < rate ==>
      y == x + RandomSigned(Draw(rng.seed, old(rng.draws) + 1), span) && rng.draws == old(rng.draws) + 2
    ensures !(Unit(Draw(rng.seed, old(rng.draws))) < rate) ==> y == x && rng.draws == old(rng.draws) + 1
    ensures (y, rng.draws) == MutatedReal(x, rate, span, rng.seed, old(rng.draws))
  {
    y := x;
    var u := rng.Next();
    if Unit(u) < rate {
      var v := rng.Next();
      y := x + RandomSigned(v, span);
    }
  }

  /** `mutateGenome(genome, { mutationRate, mutationStrength, rng })`: the
      genome the draws determine, normalised. `raw` is the mutated genome
      before normalisation. */
  method Mutate(genome: Genome, rate: real, strength: real, rng: Rng) returns (g: Genome, ghost raw: RawGenome)
    requires rng.Valid()
    modifies rng
    ensures rng.Valid()
    ensures (raw, rng.draws) == MutatedRaw(genome, rate, strength, rng.seed, old(rng.draws))
    ensures g == NormalizeGenome(raw)
  {
    var lines := MutateInt(genome.lines, rate, -2, 2, rng);
    var lineLen := MutateInt(genome.lineLen, rate, -3, 3, rng);
    var assertiveness := MutateReal(genome.assertiveness, rate, strength, rng);
    var afterglow := MutateReal(genome.afterglow, rate, strength, rng);
    var concreteness := MutateReal(genome.concreteness, rate, strength, rng);
    var repetition := MutateReal(genome.repetition, rate, strength * 0.8, rng);
    var nutrientMix := MutateReal(genome.nutrientMix, rate, strength, rng);
    var immunity := MutateReal(genome.immunity, rate, strength * 0.7, rng);
    var next := RawGenome(Finite(lines as real), Finite(lineLen as real), Finite(assertiveness),
      Finite(afterglow), Finite(concreteness), Finite(repetition), Finite(nutrientMix), Finite(immunity));
    raw := next;
    g := NormalizeGenome(next);
  }

  lemma IntStepInt(before: int, d: int)
    ensures ((before + d) as real - before as real).Floor == d
  {
    assert (before + d) as real - before as real == d as real;
  }

  /** The id of the k-th individual of generation `generation`: `g{generation}-i{k}`. */
  function IndividualId(generation: nat, k: nat): (id: string)
  {
    "g" + Text.NatToString(generation) + "-i" + Text.NatToString(k)
  }

  /** The layout of an id: 'g', the generation's digits, "-i", the index's digits. */
  lemma IndividualIdLayout(generation: nat, k: nat)
    ensures var id, g := IndividualId(generation, k), Text.NatToString(generation);
      && id[1..1 + |g|] == g
      && id[1 + |g|] == '-'
      && id[3 + |g|..] == Text.NatToString(k)
      && forall i :: 1 <= i < 1 + |g| ==> IsDigit(id[i])
  {
    var id, g := IndividualId(generation, k), Text.NatToString(generation);
    forall i | 1 <= i < 1 + |g|
      ensures IsDigit(id[i])
    {
      assert id[i] == g[i - 1];
    }
  }

  /** Different (generation, index) pairs never share an id: the digits of
      the generation stop at the first '-'. */
  lemma IndividualIdInjective(g1: nat, k1: nat, g2: nat, k2: nat)
    requires IndividualId(g1, k1) == IndividualId(g2, k2)
    ensures g1 == g2 && k1 == k2
  {
    IndividualIdLayout(g1, k1);
    IndividualIdLayout(g2, k2);
    var a, b := Text.NatToString(g1), Text.NatToString(g2);
    assert |a| == |b|;
    NatToStringInjective(g1, g2);
    NatToStringInjective(k1, k2);
  }

  /** An individual as `createInitialPopulation` returns it. */
  datatype Individual = Individual(id: string, parentIds: seq<string>, genome: Genome)

  /** The i-th individual (from 0) of generation 1, given the eight draws
      its genome was built from. */
  function Founder(i: nat, us: seq<Uint32>): (ind: Individual)
    requires |us| == FieldCount
    ensures ind.id == IndividualId(1, i + 1) && ind.parentIds == []
    ensures Normalized(ind.genome)
  {
    Individual(IndividualId(1, i + 1), [], RandomGenome(us))
  }

  /** Individual i (from 0) of `createInitialPopulation` is built from the
      i-th block of eight draws after the first `start` ones. */
  ghost predicate FoundersFrom(pop: seq<Individual>, seed: Uint32, start: nat) {
    forall i :: 0 <= i < |pop| ==> pop[i] == Founder(i, Window(seed, start + FieldCount * i, FieldCount))
  }

  lemma FoundersExtend(pop: seq<Individual>, seed: Uint32, start: nat, x: Individual)
    requires FoundersFrom(pop, seed, start)
    requires x == Founder(|pop|, Window(seed, start + FieldCount * |pop|, FieldCount))
    ensures FoundersFrom(pop + [x], seed, start)
  {
    var next := pop + [x];
    forall i | 0 <= i < |next|
      ensures next[i] == Founder(i, Window(seed, start + FieldCount * i, FieldCount))
    {
      if i < |pop| {
        assert next[i] == pop[i];
      }
    }
  }

  /** One turn of the `Array.from` callback of `createInitialPopulation`. */
  method AddFounder(pop: seq<Individual>, rng: Rng) returns (next: seq<Individual>)
    requires rng.Valid()
    modifies rng
    ensures rng.Valid() && rng.draws == old(rng.draws) + FieldCount
    ensures next == pop + [Founder(|pop|, Window(rng.seed, old(rng.draws), FieldCount))]
  {
    var g := CreateRandomGenome(rng);
    next := pop + [Individual(IndividualId(1, |pop| + 1), [], g)];
  }

  /** `createInitialPopulation(populationSize, rng)`: `populationSize`
      founders with ids `g1-i1`, `g1-i2`, ..., no parents and random genomes,
      eight draws each. */
  method CreateInitialPopulation(populationSize: nat, rng: Rng) returns (pop: seq<Individual>)
    requires rng.Valid()
    modifies rng
    ensures rng.Valid() && rng.draws == old(rng.draws) + FieldCount * populationSize
    ensures |pop| == populationSize && FoundersFrom(pop, rng.seed, old(rng.draws))
  {
    ghost var start := rng.draws;
    pop := [];
    while |pop| < populationSize
      invariant rng.Valid() && rng.draws == start + FieldCount * |pop| && |pop| <= populationSize
      invariant FoundersFrom(pop, rng.seed, start)
      decreases populationSize - |pop|
    {
      var next := AddFounder(pop, rng);
      FoundersExtend(pop, rng.seed, start, next[|pop|]);
      assert next == pop + [next[|pop|]];
      pop := next;
    }
  }
}
