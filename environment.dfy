/** The seasonal environment of the evolution orchestrator: which nutrients
    are active in a generation, the metabolism multiplier the season and
    the resource stress give, and how the stress map moves from one
    generation to the next.

    The resource state is the JavaScript object `resourceState`, a map from
    nutrient to stress; a word the map lacks reads as `undefined`. */
module Environment {
  import opened Wrappers
  import opened Numeric
  import opened Configs
  import Poems

  type ResourceState = map<string, real>

  /** `resourceState[word]`. */
  function Level(state: ResourceState, w: string): Option<real> {
    if w in state then Some(state[w]) else None
  }

  /** `clampNumber(resourceState[word], 0, 1, 0)`. */
  function StressOf(state: ResourceState, w: string): (r: real)
    ensures 0.0 <= r <= 1.0
    ensures w in state && 0.0 <= state[w] <= 1.0 ==> r == state[w]
    ensures w !in state ==> r == 0.0
  {
    ClampNumber(Level(state, w), 0.0, 1.0, 0.0)
  }

  /** 0, 1 and the other bounds the orchestrator rounds against lie on the
      0.001 grid. */
  lemma UnitBoundsOnGrid()
    ensures OnGrid(0.0) && OnGrid(1.0)
  {
    IntOnGrid(0);
    IntOnGrid(1);
  }

  /** `round(clampNumber(resourceState[word], 0, 1, 0))`. */
  function RoundedStress(state: ResourceState, w: string): (r: real)
    ensures 0.0 <= r <= 1.0 && OnGrid(r)
  {
    UnitBoundsOnGrid();
    Round3Within(StressOf(state, w), 0.0, 1.0);
    Round3IsOnGrid(StressOf(state, w));
    Round3(StressOf(state, w))
  }

  /** `createInitialResourceState(nutrients)`: every nutrient unstressed. */
  function CreateInitialResourceState(nutrients: seq<string>): (m: ResourceState)
    ensures forall w :: w in m <==> w in nutrients
    ensures forall w :: w in m ==> m[w] == 0.0
  {
    map w | w in nutrients :: 0.0
  }

  /** `buildResourceLevels(nutrients, resourceState)`: an entry for every
      nutrient, in [0, 1] and on the 0.001 grid. */
  function BuildResourceLevels(nutrients: seq<string>, state: ResourceState): (m: ResourceState)
    ensures forall w :: w in m <==> w in nutrients
    ensures forall w :: w in m ==> 0.0 <= m[w] <= 1.0 && OnGrid(m[w])
    ensures forall w :: w in m && w in state && 0.0 <= state[w] <= 1.0 && OnGrid(state[w]) ==> m[w] == state[w]
  {
    forall w | w in state && 0.0 <= state[w] <= 1.0 && OnGrid(state[w])
      ensures RoundedStress(state, w) == state[w]
    {
      Round3OnGrid(state[w]);
    }
    map w | w in nutrients :: RoundedStress(state, w)
  }

  /** Building the levels once more changes nothing. */
  lemma BuildResourceLevelsIdempotent(nutrients: seq<string>, state: ResourceState)
    ensures BuildResourceLevels(nutrients, BuildResourceLevels(nutrients, state)) == BuildResourceLevels(nutrients, state)
  {
  }

  // -------------------------------------------------------------- rotation

  /** JavaScript's `a % n` for n > 0: the remainder takes the sign of a. */
  function JsRem(a: int, n: int): (r: int)
    requires n > 0
    ensures -n < r < n
  {
    if a >= 0 then a % n else -((-a) % n)
  }

  /** `((step % n) + n) % n` is the non-negative remainder of step. */
  lemma OffsetIsMod(step: int, n: int)
    requires n > 0
    ensures (JsRem(step, n) + n) % n == step % n
  {
    if step < 0 {
      var q := (-step) / n;
      var m := (-step) % n;
      assert -step == q * n + m;
      assert step + (q + 1) * n == n - m;
      ModShift(step, q + 1, n);
    } else {
      ModShift(step % n, 1, n);
    }
  }

  /** `rotateList(list, step)`: element i of the result is element
      `(i + step) mod n` of the list, and nothing is lost or added. */
  function RotateList(list: seq<string>, step: int): (r: seq<string>)
    ensures |r| == |list|
    ensures forall i :: 0 <= i < |r| ==> r[i] == list[(i + step) % |list|]
    ensures multiset(r) == multiset(list)
  {
    if list == [] then []
    else
      var n := |list|;
      var offset := (JsRem(step, n) + n) % n;
      OffsetIsMod(step, n);
      RotateAt(list, step, offset);
      if offset == 0 then list else list[offset..] + list[..offset]
  }

  lemma RotateAt(list: seq<string>, step: int, offset: int)
    requires list != [] && 0 <= offset < |list| && offset == step % |list|
    ensures var r := if offset == 0 then list else list[offset..] + list[..offset];
      && |r| == |list| && multiset(r) == multiset(list)
      && forall i :: 0 <= i < |r| ==> r[i] == list[(i + step) % |list|]
  {
    var n := |list|;
    var r := if offset == 0 then list else list[offset..] + list[..offset];
    assert list == list[..offset] + list[offset..];
    var q := step / n;
    assert step == q * n + offset;
    forall i | 0 <= i < n
      ensures r[i] == list[(i + step) % n]
    {
      RotateIndex(i, step, n, q, offset);
    }
  }

  lemma RotateIndex(i: int, step: int, n: int, q: int, offset: int)
    requires 0 <= i < n && 0 <= offset < n && step == q * n + offset
    ensures i + offset < n ==> (i + step) % n == i + offset
    ensures i + offset >= n ==> (i + step) % n == i + offset - n
  {
    if i + offset < n {
      ModUnique(i + step, n, q, i + offset);
    } else {
      assert i + step == (q + 1) * n + (i + offset - n);
      ModUnique(i + step, n, q + 1, i + offset - n);
    }
  }

  // ------------------------------------------------------ nutrient ranking

  /** `clamp(Math.round(n * focusRatio), 1, n)`: how many nutrients a season
      keeps active. */
  function ActiveCount(n: nat, focusRatio: real): (k: int)
    requires n >= 1
    ensures 1 <= k <= n
  {
    JsClamp(MathRound(n as real * focusRatio), 1, n)
  }

  /** One `rankedNutrients` entry. `stress` is the rounded stress the
      entry reports; `score` uses the unrounded one. */
  datatype Entry = Entry(word: string, index: nat, stress: real, score: real)

  /** The stress a nutrient ranks with: 0 when the dynamics are off. */
  function RankStress(dynamics: ResourceDynamics, state: ResourceState, w: string): (r: real)
    ensures 0.0 <= r <= 1.0
    ensures !dynamics.enabled ==> r == 0.0
  {
    if dynamics.enabled then StressOf(state, w) else 0.0
  }

  /** Entry i of `rankedNutrients`: the first `activeCount` positions weigh 1,
      the others 0.35, times the vitality `1 - stress`. */
  function RankEntry(rotated: seq<string>, i: nat, activeCount: int, dynamics: ResourceDynamics,
                     state: ResourceState): (e: Entry)
    requires i < |rotated|
    ensures e.word == rotated[i] && e.index == i
    ensures 0.0 <= e.score <= 1.0
  {
    var stress := RankStress(dynamics, state, rotated[i]);
    var vitality := 1.0 - stress;
    Entry(rotated[i], i, Round3(stress), if i < activeCount then vitality else 0.35 * vitality)
  }

  function RankEntries(rotated: seq<string>, activeCount: int, dynamics: ResourceDynamics,
                       state: ResourceState): (es: seq<Entry>)
    ensures |es| == |rotated|
    ensures forall i :: 0 <= i < |es| ==> es[i] == RankEntry(rotated, i, activeCount, dynamics, state)
  {
    seq(|rotated|, i requires 0 <= i < |rotated| => RankEntry(rotated, i, activeCount, dynamics, state))
  }

  /** The comparator of the ranking sort, as a strict order: a higher score
      first, and on equal scores the lower index. */
  predicate Beats(a: Entry, b: Entry) {
    a.score > b.score || (a.score == b.score && a.index < b.index)
  }

  /** How many entries of es the sort places before e. */
  function Rank(es: seq<Entry>, e: Entry): (r: nat)
    ensures r <= |es|
  {
    if es == [] then 0 else Rank(es[..|es| - 1], e) + (if Beats(es[|es| - 1], e) then 1 else 0)
  }

  /** Entry j survives `.slice(0, activeCount)` of the sorted entries. */
  predicate Picked(es: seq<Entry>, j: nat, k: int)
    requires j < |es|
  {
    Rank(es, es[j]) < k
  }

  /** The words of the picked entries among the first m, in index order
      (the second sort, by index, and the `map` to words). */
  function PickedWords(es: seq<Entry>, k: int, m: nat): (ws: seq<string>)
    requires m <= |es|
    ensures |ws| <= m
    ensures forall w :: w in ws <==> exists j :: 0 <= j < m && Picked(es, j, k) && es[j].word == w
  {
    if m == 0 then []
    else PickedWords(es, k, m - 1) + (if Picked(es, m - 1, k) then [es[m - 1].word] else [])
  }

  /** The picked words keep the order of the ranked list. */
  lemma {:induction false} PickedInOrder(es: seq<Entry>, k: int, m: nat, words: seq<string>)
    requires m <= |es| && |words| == |es| && forall i :: 0 <= i < |es| ==> es[i].word == words[i]
    ensures Poems.Subsequence(PickedWords(es, k, m), words[..m])
  {
    if m > 0 {
      PickedInOrder(es, k, m - 1, words);
      var prev := PickedWords(es, k, m - 1);
      var w := words[m - 1];
      assert es[m - 1].word == w;
      assert words[..m] == words[..m - 1] + [w];
      if Picked(es, m - 1, k) {
        assert PickedWords(es, k, m) == prev + [w];
        SnocBoth(prev, words[..m - 1], w);
      } else {
        assert PickedWords(es, k, m) == prev;
        Poems.SubsequenceSnoc(prev, words[..m - 1], w);
      }
    }
  }

  /** Appending the same word to both sides keeps a subsequence. */
  lemma SnocBoth(xs: seq<string>, ys: seq<string>, y: string)
    requires Poems.Subsequence(xs, ys)
    ensures Poems.Subsequence(xs + [y], ys + [y])
  {
    assert (xs + [y])[..|xs|] == xs;
    assert (ys + [y])[..|ys|] == ys;
  }

  /** `list.filter((word) => !set.has(word))`. */
  function Without(xs: seq<string>, drop: seq<string>): (r: seq<string>)
    ensures forall w :: w in r <==> w in xs && w !in drop
  {
    if xs == [] then []
    else Without(xs[..|xs| - 1], drop) + (if xs[|xs| - 1] in drop then [] else [xs[|xs| - 1]])
  }

  lemma {:induction false} WithoutInOrder(xs: seq<string>, drop: seq<string>)
    ensures Poems.Subsequence(Without(xs, drop), xs)
  {
    if xs != [] {
      var init := xs[..|xs| - 1];
      var last := xs[|xs| - 1];
      var prev := Without(init, drop);
      WithoutInOrder(init, drop);
      assert xs == init + [last];
      if last in drop {
        assert Without(xs, drop) == prev;
        Poems.SubsequenceSnoc(prev, init, last);
      } else {
        assert Without(xs, drop) == prev + [last];
        SnocBoth(prev, init, last);
      }
    }
  }

  /** The words of the entries whose reported (rounded) stress reaches the
      depletion level. */
  function DepletedWords(es: seq<Entry>, level: real): (ws: seq<string>)
    ensures forall w :: w in ws <==> exists j :: 0 <= j < |es| && es[j].stress >= level && es[j].word == w
  {
    if es == [] then []
    else
      var init := DepletedWords(es[..|es| - 1], level);
      var last := es[|es| - 1];
      assert forall j :: 0 <= j < |es| - 1 ==> es[..|es| - 1][j] == es[j];
      init + (if last.stress >= level then [last.word] else [])
  }

  // --------------------------------------------------- pressure, multiplier

  function Stresses(state: ResourceState, ws: seq<string>): (r: seq<real>)
    ensures |r| == |ws|
    ensures forall i :: 0 <= i < |r| ==> r[i] == StressOf(state, ws[i])
  {
    if ws == [] then [] else Stresses(state, ws[..|ws| - 1]) + [StressOf(state, ws[|ws| - 1])]
  }

  /** `resourcePressure`: the rounded mean stress of the active nutrients,
      0 when there are none. */
  function ResourcePressure(state: ResourceState, active: seq<string>): (p: real)
    ensures 0.0 <= p <= 1.0
    ensures active == [] ==> p == 0.0
  {
    if active == [] then 0.0
    else
      var xs := Stresses(state, active);
      AverageBounds(xs, 0.0, 1.0);
      UnitBoundsOnGrid();
      Round3Within(Average(xs), 0.0, 1.0);
      Round3(Average(xs))
  }

  /** `pressureMultiplier`: 1 less the pressure's share of the metabolism
      impact, or 1 when the dynamics are off. */
  function PressureFactor(pressure: real, dynamics: ResourceDynamics): real {
    if dynamics.enabled then 1.0 - pressure * dynamics.metabolismImpact else 1.0
  }

  /** The factor lies in [0, 1] and is highest, 1, without pressure. */
  lemma FactorBounds(pressure: real, dynamics: ResourceDynamics)
    requires dynamics.Valid() && 0.0 <= pressure <= 1.0
    ensures 0.0 <= PressureFactor(pressure, dynamics) <= PressureFactor(0.0, dynamics) == 1.0
  {
    if dynamics.enabled {
      ScaleDown(pressure, dynamics.metabolismImpact);
    }
  }

  /** `round(clampNumber(season.metabolismMultiplier * pressureMultiplier,
      0.7, 1.3, 1))`, for the season's multiplier m. */
  function SeasonMultiplier(m: real, factor: real): real {
    Round3(Clamp(m * factor, 0.7, 1.3))
  }

  /** The multiplier stays in [0.7, 1.3] whatever the factor. */
  lemma MultiplierRange(m: real, factor: real)
    ensures 0.7 <= SeasonMultiplier(m, factor) <= 1.3
  {
    MultiplierBoundsOnGrid();
    Round3Within(Clamp(m * factor, 0.7, 1.3), 0.7, 1.3);
  }

  lemma MultiplierBoundsOnGrid()
    ensures OnGrid(0.7) && OnGrid(1.3)
  {
    assert 0.7 * 1000.0 == 700 as real;
    assert 1.3 * 1000.0 == 1300 as real;
  }

  /** A factor in [0, 1] can only lower a multiplier from [0.7, 1.3]. */
  lemma ScaledMultiplierBelow(m: real, factor: real)
    requires 0.7 <= m <= 1.3 && 0.0 <= factor <= 1.0
    ensures SeasonMultiplier(m, factor) <= Round3(m)
  {
    ScaleDown(m, factor);
    ClampedBelow(m * factor, m);
  }

  lemma ClampedBelow(x: real, m: real)
    requires 0.7 <= m <= 1.3 && x <= m
    ensures Round3(Clamp(x, 0.7, 1.3)) <= Round3(m)
  {
    Round3Mono(Clamp(x, 0.7, 1.3), m);
  }

  /** Resource pressure can only lower the season's multiplier; without
      pressure, or with the dynamics off, it is the season's own. */
  lemma PressureLowersMultiplier(season: Season, pressure: real, dynamics: ResourceDynamics)
    requires season.Valid() && dynamics.Valid() && 0.0 <= pressure <= 1.0
    ensures SeasonMultiplier(season.metabolismMultiplier, PressureFactor(pressure, dynamics))
      <= Round3(season.metabolismMultiplier)
  {
    FactorBounds(pressure, dynamics);
    ScaledMultiplierBelow(season.metabolismMultiplier, PressureFactor(pressure, dynamics));
  }

  // ------------------------------------------------------------ environment

  /** What `resolveGenerationEnvironment` returns (without the constant
      `mode`). */
  datatype GenerationEnvironment = GenerationEnvironment(
    seasonKey: string,
    seasonLabel: string,
    seasonIndex: nat,
    focusRatio: real,
    metabolismMultiplier: real,
    baseNutrients: seq<string>,
    activeNutrients: seq<string>,
    dormantNutrients: seq<string>,
    depletedNutrients: seq<string>,
    resourceLevels: ResourceState,
    resourcePressure: real)

  /** The `fallback` environment: no season, every nutrient active. */
  function StaticEnvironment(base: seq<string>): GenerationEnvironment {
    GenerationEnvironment("static", "固定", 0, 1.0, 1.0, base, base, [], [],
      CreateInitialResourceState(base), 0.0)
  }

  /** The environment is seasonal for this input. */
  predicate Seasonal(nutrients: seq<string>, config: EnvironmentConfig) {
    config.enabled && config.seasons != [] && nutrients != []
  }

  /** The nutrient list of generation `generation`, rotated by one more
      place each generation. */
  function Rotated(generation: nat, nutrients: seq<string>): (r: seq<string>)
    requires generation >= 1 && nutrients != []
    ensures |r| == |nutrients| && multiset(r) == multiset(nutrients)
  {
    RotateList(nutrients, (generation - 1) % |nutrients|)
  }

  function SeasonOf(generation: nat, config: EnvironmentConfig): Season
    requires generation >= 1 && config.seasons != []
  {
    config.seasons[(generation - 1) % |config.seasons|]
  }

  function RankedNutrients(generation: nat, nutrients: seq<string>, config: EnvironmentConfig,
                           state: ResourceState): (es: seq<Entry>)
    requires generation >= 1 && Seasonal(nutrients, config)
    ensures |es| == |nutrients|
  {
    var season := SeasonOf(generation, config);
    var k := ActiveCount(|nutrients|, season.focusRatio);
    RankEntries(Rotated(generation, nutrients), k, config.resourceDynamics, state)
  }

  /** The active nutrients of a seasonal generation: the `activeCount` best
      ranked entries, back in rotated order. */
  function ActiveWords(generation: nat, nutrients: seq<string>, config: EnvironmentConfig,
                       state: ResourceState): seq<string>
    requires generation >= 1 && Seasonal(nutrients, config)
  {
    var k := ActiveCount(|nutrients|, SeasonOf(generation, config).focusRatio);
    PickedWords(RankedNutrients(generation, nutrients, config, state), k, |nutrients|)
  }

  /** The depleted nutrients of a seasonal generation. */
  function DepletedOf(generation: nat, nutrients: seq<string>, config: EnvironmentConfig,
                      state: ResourceState): seq<string>
    requires generation >= 1 && Seasonal(nutrients, config)
  {
    DepletedWords(RankedNutrients(generation, nutrients, config, state), config.resourceDynamics.depletionLevel)
  }

  /** `resolveGenerationEnvironment({ generation, nutrients, config,
      resourceState })`. `generation` counts from 1. */
  function ResolveGenerationEnvironment(generation: nat, nutrients: seq<string>, config: EnvironmentConfig,
                                        state: ResourceState): (env: GenerationEnvironment)
    requires generation >= 1
    ensures env.baseNutrients == nutrients
    ensures !Seasonal(nutrients, config) ==> env == StaticEnvironment(nutrients)
    ensures Seasonal(nutrients, config) ==>
      var season := SeasonOf(generation, config);
      && env.seasonIndex == (generation - 1) % |config.seasons|
      && env.seasonKey == season.key && env.focusRatio == season.focusRatio
      && env.activeNutrients == ActiveWords(generation, nutrients, config, state)
      && env.dormantNutrients == Without(Rotated(generation, nutrients), env.activeNutrients)
      && env.depletedNutrients == DepletedOf(generation, nutrients, config, state)
      && env.resourceLevels == BuildResourceLevels(nutrients, state)
      && env.resourcePressure == ResourcePressure(state, env.activeNutrients)
      && env.metabolismMultiplier == SeasonMultiplier(season.metabolismMultiplier, PressureFactor(env.resourcePressure, config.resourceDynamics))
    ensures 0.7 <= env.metabolismMultiplier <= 1.3
    ensures 0.0 <= env.resourcePressure <= 1.0
  {
    if !Seasonal(nutrients, config) then StaticEnvironment(nutrients)
    else
      var seasonIndex := (generation - 1) % |config.seasons|;
      var season := config.seasons[seasonIndex];
      var active := ActiveWords(generation, nutrients, config, state);
      var pressure := ResourcePressure(state, active);
      MultiplierRange(season.metabolismMultiplier, PressureFactor(pressure, config.resourceDynamics));
      GenerationEnvironment(season.key, season.labelText, seasonIndex, season.focusRatio,
        SeasonMultiplier(season.metabolismMultiplier, PressureFactor(pressure, config.resourceDynamics)), nutrients, active,
        Without(Rotated(generation, nutrients), active), DepletedOf(generation, nutrients, config, state),
        BuildResourceLevels(nutrients, state), pressure)
  }

  /** In a seasonal generation the active and the dormant nutrients split
      the rotated list: every word lies in exactly one of them, and both
      keep the rotated order. */
  lemma ActiveDormantPartition(generation: nat, nutrients: seq<string>, config: EnvironmentConfig,
                               state: ResourceState)
    requires generation >= 1 && Seasonal(nutrients, config)
    ensures var rotated := Rotated(generation, nutrients);
      var active := ActiveWords(generation, nutrients, config, state);
      var dormant := Without(rotated, active);
      && (forall w :: w in rotated <==> w in active || w in dormant)
      && (forall w :: !(w in active && w in dormant))
      && Poems.Subsequence(active, rotated)
      && Poems.Subsequence(dormant, rotated)
  {
    var rotated := Rotated(generation, nutrients);
    var k := ActiveCount(|nutrients|, SeasonOf(generation, config).focusRatio);
    var es := RankedNutrients(generation, nutrients, config, state);
    var active := PickedWords(es, k, |es|);
    PickedInOrder(es, k, |es|, rotated);
    assert rotated[..|es|] == rotated;
    WithoutInOrder(rotated, active);
    forall w | w in active
      ensures w in rotated
    {
      var j :| 0 <= j < |es| && Picked(es, j, k) && es[j].word == w;
      assert rotated[j] == w;
    }
  }

  /** A nutrient is depleted exactly when its reported stress reaches the
      depletion level. */
  lemma DepletedIff(generation: nat, nutrients: seq<string>, config: EnvironmentConfig,
                    state: ResourceState, w: string)
    requires generation >= 1 && Seasonal(nutrients, config)
    ensures w in DepletedOf(generation, nutrients, config, state) <==>
        w in nutrients
        && Round3(RankStress(config.resourceDynamics, state, w)) >= config.resourceDynamics.depletionLevel
  {
    var es := RankedNutrients(generation, nutrients, config, state);
    var rotated := Rotated(generation, nutrients);
    assert multiset(rotated) == multiset(nutrients);
    assert w in nutrients <==> w in multiset(nutrients);
    if w in rotated {
      var j :| 0 <= j < |rotated| && rotated[j] == w;
      assert es[j].word == w;
    }
  }

  /** With the dynamics off no nutrient is depleted, since the reported
      stress is 0 and the depletion level at least 0.25. */
  lemma NoDepletionWithoutDynamics(generation: nat, nutrients: seq<string>, config: EnvironmentConfig,
                                   state: ResourceState)
    requires generation >= 1 && Seasonal(nutrients, config)
    requires config.Valid() && !config.resourceDynamics.enabled
    ensures DepletedOf(generation, nutrients, config, state) == []
  {
    var es := RankedNutrients(generation, nutrients, config, state);
    var level := config.resourceDynamics.depletionLevel;
    ZeroRounds();
    forall j | 0 <= j < |es|
      ensures es[j].stress < level
    {
    }
    NothingDepleted(es, level);
  }

  lemma NothingDepleted(es: seq<Entry>, level: real)
    requires forall j :: 0 <= j < |es| ==> es[j].stress < level
    ensures DepletedWords(es, level) == []
  {
  }

  // ------------------------------------------------------- resource update

  /** Occurrences of w in a list. */
  function CountOf(xs: seq<string>, w: string): (n: nat)
    ensures n <= |xs|
  {
    if xs == [] then 0 else CountOf(xs[..|xs| - 1], w) + (if xs[|xs| - 1] == w then 1 else 0)
  }

  /** Occurrences of w over all the lists. */
  function Occurrences(lists: seq<seq<string>>, w: string): nat {
    if lists == [] then 0 else Occurrences(lists[..|lists| - 1], w) + CountOf(lists[|lists| - 1], w)
  }

  /** A word a list does not hold occurs in it no times. */
  lemma {:induction false} CountOfAbsent(xs: seq<string>, w: string)
    requires w !in xs
    ensures CountOf(xs, w) == 0
  {
    if xs != [] {
      assert w !in xs[..|xs| - 1];
      CountOfAbsent(xs[..|xs| - 1], w);
    }
  }

  /** A duplicate-free list holds a word at most once. */
  lemma {:induction false} CountOfDistinct(xs: seq<string>, w: string)
    requires Poems.Distinct(xs)
    ensures CountOf(xs, w) <= 1
  {
    if xs != [] {
      var init := xs[..|xs| - 1];
      assert Poems.Distinct(init);
      CountOfDistinct(init, w);
      if xs[|xs| - 1] == w {
        assert w !in init;
        CountOfAbsent(init, w);
      }
    }
  }

  /** When every list is duplicate-free, a word is counted at most once per
      list. */
  lemma {:induction false} OccurrencesBound(lists: seq<seq<string>>, w: string)
    requires forall i :: 0 <= i < |lists| ==> Poems.Distinct(lists[i])
    ensures Occurrences(lists, w) <= |lists|
  {
    if lists != [] {
      OccurrencesBound(lists[..|lists| - 1], w);
      CountOfDistinct(lists[|lists| - 1], w);
    }
  }

  /** The inner loop of `countNutrientUsage`: one record's used nutrients
      each count once more, when they are being counted at all. */
  method CountUses(usage: map<string, nat>, words: seq<string>) returns (next: map<string, nat>)
    ensures next.Keys == usage.Keys
    ensures forall w :: w in next ==> next[w] == usage[w] + CountOf(words, w)
  {
    next := usage;
    var j := 0;
    while j < |words|
      invariant 0 <= j <= |words|
      invariant next.Keys == usage.Keys
      invariant forall w :: w in next ==> next[w] == usage[w] + CountOf(words[..j], w)
    {
      assert words[..j + 1][..j] == words[..j];
      if words[j] in next {
        next := next[words[j] := next[words[j]] + 1];
      }
      j := j + 1;
    }
    assert words[..j] == words;
  }

  /** `countNutrientUsage(records, nutrients)`, given each record's
      `meta.usedNutrients`: how many times each nutrient was used. */
  method CountNutrientUsage(usedLists: seq<seq<string>>, nutrients: seq<string>) returns (usage: map<string, nat>)
    ensures forall w :: w in usage <==> w in nutrients
    ensures forall w :: w in usage ==> usage[w] == Occurrences(usedLists, w)
  {
    usage := map w | w in nutrients :: 0;
    var r := 0;
    while r < |usedLists|
      invariant 0 <= r <= |usedLists|
      invariant forall w :: w in usage <==> w in nutrients
      invariant forall w :: w in usage ==> usage[w] == Occurrences(usedLists[..r], w)
    {
      assert usedLists[..r + 1][..r] == usedLists[..r];
      usage := CountUses(usage, usedLists[r]);
      r := r + 1;
    }
    assert usedLists[..r] == usedLists;
  }

  /** `usageCounts[nutrient] / population`. */
  function UsageShare(count: nat, population: int): (r: real)
    requires population >= 1
    ensures 0.0 <= r
    ensures count <= population ==> r <= 1.0
  {
    count as real / population as real
  }

  /** The usage ratio of w over a generation's used lists. */
  function UsageRatio(usedLists: seq<seq<string>>, w: string): (r: real)
    ensures 0.0 <= r
  {
    UsageShare(Occurrences(usedLists, w), MaxInt(1, |usedLists|))
  }

  /** With duplicate-free used lists the usage ratio is at most 1. */
  lemma UsageRatioBound(usedLists: seq<seq<string>>, w: string)
    requires forall i :: 0 <= i < |usedLists| ==> Poems.Distinct(usedLists[i])
    ensures UsageRatio(usedLists, w) <= 1.0
  {
    OccurrencesBound(usedLists, w);
  }

  /** The usage pressure: nothing up to the threshold, then rising linearly
      to 1 at full usage. */
  function UsagePressure(ratio: real, threshold: real): (p: real)
    requires threshold < 1.0
    ensures 0.0 <= p
    ensures ratio <= threshold ==> p == 0.0
    ensures ratio <= 1.0 ==> p <= 1.0
  {
    if ratio <= threshold then 0.0
    else
      var d := 1.0 - threshold;
      assert ratio <= 1.0 ==> ratio - threshold <= d;
      (ratio - threshold) / d
  }

  /** `decayRate`: the recovery rate, plus the bonus for an inactive
      nutrient, clamped to [0, 0.95]. */
  function DecayRate(active: bool, dynamics: ResourceDynamics): (r: real)
    ensures 0.0 <= r <= 0.95
  {
    Clamp(dynamics.recoveryRate + (if active then 0.0 else dynamics.inactiveRecoveryBonus), 0.0, 0.95)
  }

  /** `nextStress`, clamped to [0, 1] and rounded: the previous stress
      decays by `decay` and the usage pressure adds its share of `gain`. */
  function NextStress(previous: real, decay: real, pressure: real, gain: real): (r: real)
    ensures 0.0 <= r <= 1.0
  {
    UnitBoundsOnGrid();
    Round3Within(Clamp(previous * (1.0 - decay) + pressure * gain, 0.0, 1.0), 0.0, 1.0);
    Round3(Clamp(previous * (1.0 - decay) + pressure * gain, 0.0, 1.0))
  }

  lemma NextStressIs(previous: real, decay: real, pressure: real, gain: real)
    ensures NextStress(previous, decay, pressure, gain)
      == Round3(Clamp(previous * (1.0 - decay) + pressure * gain, 0.0, 1.0))
  {
  }

  /** Without usage pressure the stress only recovers. */
  lemma RecoveryWithoutPressure(previous: real, decay: real, gain: real)
    requires 0.0 <= previous <= 1.0 && 0.0 <= decay <= 1.0
    ensures NextStress(previous, decay, 0.0, gain) <= Round3(previous)
  {
    NextStressIs(previous, decay, 0.0, gain);
    DecayedBelow(previous, decay, gain);
  }

  lemma DecayedBelow(previous: real, decay: real, gain: real)
    requires 0.0 <= previous <= 1.0 && 0.0 <= decay <= 1.0
    ensures Round3(Clamp(previous * (1.0 - decay) + 0.0 * gain, 0.0, 1.0)) <= Round3(previous)
  {
    ScaleDown(previous, 1.0 - decay);
    var kept := previous * (1.0 - decay);
    var raw := kept + 0.0 * gain;
    assert raw == kept;
    ClampMono(raw, previous, 0.0, 1.0);
    Round3Mono(Clamp(raw, 0.0, 1.0), previous);
  }

  /** A nutrient used no more than the threshold recovers: its stress does
      not rise above the (rounded) previous stress. */
  lemma RecoveryBelowThreshold(previous: real, ratio: real, active: bool, dynamics: ResourceDynamics)
    requires dynamics.Valid() && 0.0 <= previous <= 1.0 && ratio <= dynamics.depletionThreshold
    ensures NextStress(previous, DecayRate(active, dynamics), UsagePressure(ratio, dynamics.depletionThreshold),
                       dynamics.depletionGain) <= Round3(previous)
  {
    RecoveryWithoutPressure(previous, DecayRate(active, dynamics), dynamics.depletionGain);
  }

  /** More usage pressure never lowers the next stress. */
  lemma StressRisesWithPressure(previous: real, decay: real, p: real, q: real, gain: real)
    requires 0.0 <= gain && p <= q
    ensures NextStress(previous, decay, p, gain) <= NextStress(previous, decay, q, gain)
  {
    NextStressIs(previous, decay, p, gain);
    NextStressIs(previous, decay, q, gain);
    RaisedAbove(previous * (1.0 - decay), p, q, gain);
  }

  lemma RaisedAbove(kept: real, p: real, q: real, gain: real)
    requires 0.0 <= gain && p <= q
    ensures Round3(Clamp(kept + p * gain, 0.0, 1.0)) <= Round3(Clamp(kept + q * gain, 0.0, 1.0))
  {
    MulLe(p, q, gain);
    ClampMono(kept + p * gain, kept + q * gain, 0.0, 1.0);
    Round3Mono(Clamp(kept + p * gain, 0.0, 1.0), Clamp(kept + q * gain, 0.0, 1.0));
  }

  /** `evolveResourceState({ resourceState, records, nutrients, environment,
      config })`, given each record's `meta.usedNutrients` and the active
      nutrients of the generation. */
  method EvolveResourceState(state: ResourceState, usedLists: seq<seq<string>>, nutrients: seq<string>,
                             activeNutrients: seq<string>, dynamics: ResourceDynamics)
    returns (next: ResourceState)
    requires dynamics.Valid()
    ensures !dynamics.enabled ==> next == BuildResourceLevels(nutrients, state)
    ensures forall w :: w in next <==> w in nutrients
    ensures forall w :: w in next ==> 0.0 <= next[w] <= 1.0
    ensures dynamics.enabled ==> forall w :: w in next ==>
      next[w] == NextStress(StressOf(state, w), DecayRate(w in activeNutrients, dynamics),
                            UsagePressure(UsageRatio(usedLists, w), dynamics.depletionThreshold), dynamics.depletionGain)
  {
    if !dynamics.enabled {
      next := BuildResourceLevels(nutrients, state);
      return;
    }
    var usage := CountNutrientUsage(usedLists, nutrients);
    var population := MaxInt(1, |usedLists|);
    next := map[];
    var i := 0;
    while i < |nutrients|
      invariant 0 <= i <= |nutrients|
      invariant forall w :: w in next <==> w in nutrients[..i]
      invariant forall w :: w in next ==>
        next[w] == NextStress(StressOf(state, w), DecayRate(w in activeNutrients, dynamics),
                              UsagePressure(UsageRatio(usedLists, w), dynamics.depletionThreshold), dynamics.depletionGain)
    {
      var w := nutrients[i];
      var ratio := UsageShare(usage[w], population);
      var pressure := UsagePressure(ratio, dynamics.depletionThreshold);
      var decay := DecayRate(w in activeNutrients, dynamics);
      next := next[w := NextStress(StressOf(state, w), decay, pressure, dynamics.depletionGain)];
      assert nutrients[..i + 1] == nutrients[..i] + [w];
      i := i + 1;
    }
    assert nutrients[..i] == nutrients;
  }
}
