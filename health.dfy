/** The fitness diagnostic `diagnosePoem`: a tiered metabolism score for the
    nutrients a poem used, structure bonuses, repetition penalties and
    death by a toxic word, combined into a clamped total with an ordered
    list of reason tags.

    Each evaluator of the source pushes its tags into one shared `reasons`
    array; here each takes the list so far and returns it extended. */
module Health {
  import opened Wrappers
  import opened Numeric
  import opened Text
  import opened Genomes
  import opened Poems

  // ------------------------------------------------------------ reason tags

  /** The reason tags a diagnosis can carry; `Label` gives the text the
      source pushes. `EnergyDepleted` is added by the generation evaluation. */
  datatype Reason =
    | NutrientShortage | NutrientImbalance | SeasonTailwind | SeasonHeadwind
    | StructureBroken | LineLengthDeviation | LineTooLong
    | ToxicWordDetected | DeathVerdict
    | RepetitionSeizure | RepetitionExcess | WordHammering
    | Stable | EnergyDepleted

  function Label(r: Reason): string {
    match r
    case NutrientShortage => "栄養不足"
    case NutrientImbalance => "栄養偏り"
    case SeasonTailwind => "季節追い風"
    case SeasonHeadwind => "季節逆風"
    case StructureBroken => "構造崩れ"
    case LineLengthDeviation => "行長の逸脱"
    case LineTooLong => "長すぎる行"
    case ToxicWordDetected => "毒語を検出"
    case DeathVerdict => "死亡判定"
    case RepetitionSeizure => "反復発作"
    case RepetitionExcess => "反復過多"
    case WordHammering => "同語連打"
    case Stable => "安定"
    case EnergyDepleted => "エネルギー枯渇"
  }

  /** Points a check contributes: `points` when it holds, else nothing. */
  function Bonus(holds: bool, points: int): (r: int)
    ensures holds ==> r == points
    ensures !holds ==> r == 0
  {
    if holds then points else 0
  }

  // ------------------------------------------------------------- metabolism

  /** The season's multiplier, 1 when the environment gives none. */
  function Multiplier(m: Option<real>): (r: real)
    ensures m.Some? ==> r == m.value
    ensures m.None? ==> r == 1.0
  {
    m.GetOr(1.0)
  }

  /** `usedNutrients.length / Math.max(1, nutrientsExpected)`. */
  function Coverage(used: nat, expected: int): (r: real)
    ensures r >= 0.0
    ensures expected <= 1 ==> r == used as real
  {
    used as real / MaxInt(1, expected) as real
  }

  /** The base tier: 38 for wide coverage or three nutrients, 32 for middling
      coverage or two, 24 otherwise. */
  function BaseTier(used: nat, expected: int): (base: nat)
    ensures base == 38 || base == 32 || base == 24
    ensures base == 38 <==> Coverage(used, expected) >= 0.75 || used >= 3
    ensures base == 24 <==> Coverage(used, expected) < 0.4 && used < 2
    ensures used >= 1 && expected <= 1 ==> base == 38
  {
    var coverage := Coverage(used, expected);
    if coverage >= 0.75 || used >= 3 then 38
    else if coverage >= 0.4 || used >= 2 then 32
    else 24
  }

  /** Using more nutrients never lowers the tier. */
  lemma BaseTierMonotone(used: nat, more: nat, expected: int)
    requires used <= more
    ensures BaseTier(used, expected) <= BaseTier(more, expected)
  {
    var d := MaxInt(1, expected) as real;
    assert Coverage(used, expected) <= Coverage(more, expected) by {
      assert used as real / d <= more as real / d;
    }
  }

  /** `clamp(round(baseScore * multiplier), 0, 45)`. */
  function TierScore(base: nat, multiplier: real): (r: real)
    ensures 0.0 <= r <= 45.0
  {
    Clamp(Round3(base as real * multiplier), 0.0, 45.0)
  }

  /** `evaluateMetabolism`'s score. */
  function MetabolismScore(used: nat, expected: int, multiplier: Option<real>): (r: real)
    ensures 0.0 <= r <= 45.0
    ensures used == 0 ==> r == 0.0
    ensures used > 0 ==> r == TierScore(BaseTier(used, expected), Multiplier(multiplier))
  {
    if used == 0 then 0.0
    else TierScore(BaseTier(used, expected), Multiplier(multiplier))
  }

  /** The tags `evaluateMetabolism` pushes, in order. */
  function MetabolismReasons(used: nat, expected: int, multiplier: Option<real>): (r: seq<Reason>)
    ensures used == 0 ==> r == [NutrientShortage]
    ensures used > 0 ==> NutrientShortage !in r && |r| <= 2
    ensures NutrientImbalance in r <==> used > 0 && BaseTier(used, expected) == 24
    ensures SeasonTailwind in r <==> used > 0 && Multiplier(multiplier) >= 1.06
    ensures SeasonHeadwind in r <==> used > 0 && Multiplier(multiplier) <= 0.94
    ensures Stable !in r
  {
    if used == 0 then [NutrientShortage]
    else
      var m := Multiplier(multiplier);
      (if BaseTier(used, expected) == 24 then [NutrientImbalance] else [])
      + (if m >= 1.06 then [SeasonTailwind] else if m <= 0.94 then [SeasonHeadwind] else [])
  }

  /** Under a neutral season the score is the base tier itself. */
  lemma MetabolismNeutral(used: nat, expected: int, multiplier: Option<real>)
    requires used > 0 && Multiplier(multiplier) == 1.0
    ensures MetabolismScore(used, expected, multiplier) == BaseTier(used, expected) as real
    ensures MetabolismReasons(used, expected, multiplier) == if BaseTier(used, expected) == 24 then [NutrientImbalance] else []
  {
    var b := BaseTier(used, expected);
    IntOnGrid(b);
    Round3OnGrid(b as real);
  }

  /** Under a season that does not penalise, using more nutrients never
      lowers the metabolism score. */
  lemma MetabolismMonotone(used: nat, more: nat, expected: int, multiplier: Option<real>)
    requires 0 < used <= more && Multiplier(multiplier) >= 0.0
    ensures MetabolismScore(used, expected, multiplier) <= MetabolismScore(more, expected, multiplier)
  {
    BaseTierMonotone(used, more, expected);
    TierScoreMonotone(BaseTier(used, expected), BaseTier(more, expected), Multiplier(multiplier));
  }

  lemma TierScoreMonotone(base: nat, higher: nat, multiplier: real)
    requires base <= higher && multiplier >= 0.0
    ensures TierScore(base, multiplier) <= TierScore(higher, multiplier)
  {
    var x := base as real * multiplier;
    var y := higher as real * multiplier;
    assert x <= y by {
      assert y - x == (higher - base) as real * multiplier;
    }
    Round3Mono(x, y);
  }

  /** `evaluateMetabolism({ usedNutrients, nutrientsExpected, environment, reasons })`. */
  method EvaluateMetabolism(usedNutrients: seq<string>, nutrientsExpected: nat, multiplier: Option<real>,
                            reasons: seq<Reason>)
    returns (score: real, out: seq<Reason>)
    ensures score == MetabolismScore(|usedNutrients|, nutrientsExpected, multiplier)
    ensures out == reasons + MetabolismReasons(|usedNutrients|, nutrientsExpected, multiplier)
  {
    out := reasons;
    if |usedNutrients| == 0 {
      out := out + [NutrientShortage];
      return 0.0, out;
    }
    var coverage := Coverage(|usedNutrients|, nutrientsExpected);
    var baseScore: nat := 0;
    if coverage >= 0.75 || |usedNutrients| >= 3 {
      baseScore := 38;
    } else if coverage >= 0.4 || |usedNutrients| >= 2 {
      baseScore := 32;
    } else {
      baseScore := 24;
      out := out + [NutrientImbalance];
    }
    var m := Multiplier(multiplier);
    if m >= 1.06 {
      out := out + [SeasonTailwind];
    } else if m <= 0.94 {
      out := out + [SeasonHeadwind];
    }
    score := TierScore(baseScore, m);
  }

  // -------------------------------------------------------------- structure

  predicate LineCountInRange(stats: PoemStats) {
    4 <= stats.lineCount <= 16
  }

  /** `Math.abs(stats.lineCount - genome.lines) <= 2`. */
  predicate LineCountNearGenome(stats: PoemStats, genome: Genome) {
    -2 <= stats.lineCount - genome.lines <= 2
  }

  predicate AverageInRange(stats: PoemStats, genome: Genome) {
    Max(4.0, genome.lineLen as real * 0.4) <= stats.averageLineLength <= genome.lineLen as real * 1.8
  }

  predicate HasOverlongLine(stats: PoemStats, genome: Genome) {
    stats.maxLineLength as real > genome.lineLen as real * 2.4
  }

  /** `evaluateStructure`'s score: 12 for a line count in [4, 16], 8 for a
      line count within 2 of the genome's, 14 for an average line length in
      range and 8 when no line is over long. */
  function StructureScore(stats: PoemStats, genome: Genome): (r: int)
    ensures r in {0, 8, 12, 14, 16, 20, 22, 26, 28, 30, 34, 42}
    ensures r == 42 <==>
      LineCountInRange(stats) && LineCountNearGenome(stats, genome) && AverageInRange(stats, genome)
      && !HasOverlongLine(stats, genome)
    ensures HasOverlongLine(stats, genome) ==> r <= 34
  {
    Bonus(LineCountInRange(stats), 12) + Bonus(LineCountNearGenome(stats, genome), 8)
    + Bonus(AverageInRange(stats, genome), 14) + Bonus(!HasOverlongLine(stats, genome), 8)
  }

  /** The tags `evaluateStructure` pushes, in order. */
  function StructureReasons(stats: PoemStats, genome: Genome): (r: seq<Reason>)
    ensures |r| <= 3
    ensures StructureBroken in r <==> !LineCountInRange(stats)
    ensures LineLengthDeviation in r <==> !AverageInRange(stats, genome)
    ensures LineTooLong in r <==> HasOverlongLine(stats, genome)
    ensures Stable !in r && NutrientShortage !in r
  {
    (if LineCountInRange(stats) then [] else [StructureBroken])
    + (if AverageInRange(stats, genome) then [] else [LineLengthDeviation])
    + (if HasOverlongLine(stats, genome) then [LineTooLong] else [])
  }

  /** The structure score is told by the tags: each tag withholds its check's
      points, and only the line-count match is silent. */
  lemma StructureScoreFromReasons(stats: PoemStats, genome: Genome)
    ensures var r := StructureReasons(stats, genome);
      StructureScore(stats, genome) ==
        42 - Bonus(StructureBroken in r, 12) - Bonus(LineLengthDeviation in r, 14)
        - Bonus(LineTooLong in r, 8) - Bonus(!LineCountNearGenome(stats, genome), 8)
  {
  }

  /** `evaluateStructure(stats, genome, reasons)`. */
  method EvaluateStructure(stats: PoemStats, genome: Genome, reasons: seq<Reason>)
    returns (score: int, out: seq<Reason>)
    ensures score == StructureScore(stats, genome)
    ensures out == reasons + StructureReasons(stats, genome)
  {
    score := 0;
    out := reasons;
    if 4 <= stats.lineCount <= 16 {
      score := score + 12;
    } else {
      out := out + [StructureBroken];
    }
    if -2 <= stats.lineCount - genome.lines <= 2 {
      score := score + 8;
    }
    var minAverage := Max(4.0, genome.lineLen as real * 0.4);
    var maxAverage := genome.lineLen as real * 1.8;
    if minAverage <= stats.averageLineLength <= maxAverage {
      score := score + 14;
    } else {
      out := out + [LineLengthDeviation];
    }
    if stats.maxLineLength as real > genome.lineLen as real * 2.4 {
      out := out + [LineTooLong];
    } else {
      score := score + 8;
    }
  }

  // ------------------------------------------------------------- repetition

  /** `evaluateRepetition`'s penalty: 25 below a unique-token ratio of
      0.32, else 12 below 0.45, plus 10 for a run of four equal tokens. */
  function RepetitionPenalty(stats: PoemStats): (r: int)
    ensures r in {0, 10, 12, 22, 25, 35}
    ensures r in {10, 22, 35} <==> stats.longestRepeatRun >= 4
    ensures r >= 25 <==> stats.uniqueTokenRatio < 0.32
    ensures stats.uniqueTokenRatio >= 0.45 ==> r <= 10
  {
    (if stats.uniqueTokenRatio < 0.32 then 25 else if stats.uniqueTokenRatio < 0.45 then 12 else 0)
    + Bonus(stats.longestRepeatRun >= 4, 10)
  }

  /** The tags `evaluateRepetition` pushes, in order. */
  function RepetitionReasons(stats: PoemStats): (r: seq<Reason>)
    ensures |r| <= 2
    ensures RepetitionSeizure in r <==> stats.uniqueTokenRatio < 0.32
    ensures RepetitionExcess in r <==> 0.32 <= stats.uniqueTokenRatio < 0.45
    ensures WordHammering in r <==> stats.longestRepeatRun >= 4
    ensures Stable !in r
  {
    (if stats.uniqueTokenRatio < 0.32 then [RepetitionSeizure]
     else if stats.uniqueTokenRatio < 0.45 then [RepetitionExcess] else [])
    + (if stats.longestRepeatRun >= 4 then [WordHammering] else [])
  }

  /** A repetition penalty is charged exactly when a repetition tag is given. */
  lemma RepetitionPenaltyTagged(stats: PoemStats)
    ensures RepetitionPenalty(stats) == 0 <==> RepetitionReasons(stats) == []
  {
  }

  /** `evaluateRepetition(stats, reasons)`. */
  method EvaluateRepetition(stats: PoemStats, reasons: seq<Reason>) returns (penalty: int, out: seq<Reason>)
    ensures penalty == RepetitionPenalty(stats)
    ensures out == reasons + RepetitionReasons(stats)
  {
    penalty := 0;
    out := reasons;
    if stats.uniqueTokenRatio < 0.32 {
      penalty := penalty + 25;
      out := out + [RepetitionSeizure];
    } else if stats.uniqueTokenRatio < 0.45 {
      penalty := penalty + 12;
      out := out + [RepetitionExcess];
    }
    if stats.longestRepeatRun >= 4 {
      penalty := penalty + 10;
      out := out + [WordHammering];
    }
  }

  // ------------------------------------------------------------ toxic words

  /** The trimmed toxic word w occurs in the poem, ignoring case. */
  predicate IsToxicHit(poem: string, w: string) {
    w != "" && Contains(Lower(poem), Lower(w))
  }

  /** The words of ws that hit the poem, in order. */
  function HitsAmong(poem: string, ws: seq<string>): (hits: seq<string>)
    ensures forall h :: h in hits ==> IsToxicHit(poem, h) && h in ws
    ensures forall w :: w in ws && IsToxicHit(poem, w) ==> w in hits
    ensures Subsequence(hits, ws)
    // a repeated toxic word is a repeated hit
    ensures forall x :: multiset(hits)[x] == if IsToxicHit(poem, x) then multiset(ws)[x] else 0
  {
    if ws == [] then []
    else
      var init := ws[..|ws| - 1];
      var w := ws[|ws| - 1];
      var rest := HitsAmong(poem, init);
      assert ws == init + [w];
      assert multiset(ws) == multiset(init) + multiset{w};
      if IsToxicHit(poem, w) then
        assert multiset(rest + [w]) == multiset(rest) + multiset{w};
        rest + [w]
      else
        SubsequenceSnoc(rest, init, w);
        rest
  }

  /** `findToxicHits(poem, toxicWords)`: the trimmed, non-empty toxic words
      that occur in the poem ignoring case, in the order of `toxicWords`. */
  function FindToxicHits(poem: string, toxicWords: seq<string>): (hits: seq<string>)
    ensures forall h :: h in hits ==> IsToxicHit(poem, h) && h in TrimAll(toxicWords)
    ensures forall w :: w in toxicWords && IsToxicHit(poem, Trim(w)) ==> Trim(w) in hits
    ensures Subsequence(hits, TrimAll(toxicWords))
    ensures forall x :: multiset(hits)[x] == if IsToxicHit(poem, x) then multiset(TrimAll(toxicWords))[x] else 0
  {
    var trimmed := TrimAll(toxicWords);
    assert forall w :: w in toxicWords ==> Trim(w) in trimmed;
    HitsAmong(poem, trimmed)
  }

  /** A toxic word listed twice counts as two hits (and so doubles the
      penalty before its floor of 80). */
  lemma RepeatedToxicWord(poem: string, w: string)
    requires IsToxicHit(poem, w)
    ensures HitsAmong(poem, [w, w]) == [w, w]
  {
    assert [w, w][..1] == [w];
    assert [w][..0] == [];
  }

  /** A poem is poisoned iff some trimmed toxic word occurs in it. */
  lemma ToxicIff(poem: string, toxicWords: seq<string>)
    ensures FindToxicHits(poem, toxicWords) != [] <==> exists w :: w in toxicWords && IsToxicHit(poem, Trim(w))
  {
    var hits := FindToxicHits(poem, toxicWords);
    if hits != [] {
      assert hits[0] in TrimAll(toxicWords);
      var i :| 0 <= i < |toxicWords| && TrimAll(toxicWords)[i] == hits[0];
      assert IsToxicHit(poem, Trim(toxicWords[i]));
    }
  }

  // -------------------------------------------------------------- diagnosis

  datatype ScoreBreakdown = ScoreBreakdown(
    metabolismScore: real,
    structureScore: int,
    toxinPenalty: real,
    repetitionPenalty: int)

  datatype Metrics = Metrics(
    lineCount: nat,
    averageLineLength: real,
    uniqueTokenRatio: real,
    longestRepeatRun: nat)

  datatype Diag = Diag(
    reasons: seq<Reason>,
    isDead: bool,
    toxicHits: seq<string>,
    nutrientsExpected: nat,
    metrics: Metrics)

  datatype Diagnosis = Diagnosis(score: real, scoreBreakdown: ScoreBreakdown, diag: Diag)

  /** The tags the evaluators push, before "安定" is considered. */
  function PushedReasons(used: nat, expected: nat, multiplier: Option<real>, stats: PoemStats, genome: Genome,
                         isDead: bool): (r: seq<Reason>)
    ensures Stable !in r
    ensures used == 0 ==> r != []
  {
    MetabolismReasons(used, expected, multiplier) + StructureReasons(stats, genome)
    + (if isDead then [ToxicWordDetected, DeathVerdict] else []) + RepetitionReasons(stats)
  }

  /** `round(toxicHits.length * 35 * (1 - immunity * 0.7))`. */
  function AttenuatedPenalty(hits: nat, immunity: real): (r: real)
    ensures hits == 0 ==> r == 0.0
  {
    ZeroRounds();
    Round3((hits * 35) as real * (1.0 - immunity * 0.7))
  }

  /** The toxin penalty: the attenuated penalty, at least 80 for a dead poem. */
  function ToxinPenalty(hits: nat, immunity: real): (r: real)
    ensures hits > 0 ==> r >= 80.0
    ensures hits == 0 ==> r == 0.0
  {
    var p := AttenuatedPenalty(hits, immunity);
    if hits > 0 then Max(p, 80.0) else p
  }

  /** Lines 20-28 of `diagnosePoem`: the toxin penalty and, for a dead poem,
      its two tags. */
  method ChargeToxins(hits: seq<string>, immunity: real, reasons: seq<Reason>)
    returns (penalty: real, out: seq<Reason>)
    ensures penalty == ToxinPenalty(|hits|, immunity)
    ensures out == reasons + (if hits != [] then [ToxicWordDetected, DeathVerdict] else [])
  {
    out := reasons;
    penalty := AttenuatedPenalty(|hits|, immunity);
    if |hits| > 0 {
      penalty := Max(penalty, 80.0);
      out := out + [ToxicWordDetected, DeathVerdict];
    }
  }

  /** `isDead ? 0 : clamp(round(rawScore), 0, 100)`. */
  function FinalScore(isDead: bool, rawScore: real): (r: real)
    ensures 0.0 <= r <= 100.0
    ensures isDead ==> r == 0.0
    ensures !isDead && 0.0 <= rawScore <= 100.0 ==> -0.0005 <= r - rawScore <= 0.0005
  {
    if isDead then 0.0 else Clamp(Round3(rawScore), 0.0, 100.0)
  }

  /** The sum the four checks leave before clamping. */
  function RawScore(b: ScoreBreakdown): real {
    b.metabolismScore + b.structureScore as real - b.toxinPenalty - b.repetitionPenalty as real
  }

  /** The four checks of `diagnosePoem` in their order, each pushing its
      reasons onto the shared list. */
  method RunChecks(poem: string, genome: Genome, nutrients: seq<string>, toxicWords: seq<string>,
                   usedNutrients: seq<string>, stats: PoemStats, multiplier: Option<real>)
    returns (b: ScoreBreakdown, toxicHits: seq<string>, reasons: seq<Reason>)
    ensures toxicHits == FindToxicHits(poem, toxicWords)
    ensures |toxicHits| > 0 <==> exists w :: w in toxicWords && IsToxicHit(poem, Trim(w))
    ensures b == ScoreBreakdown(
      MetabolismScore(|usedNutrients|, |nutrients|, multiplier), StructureScore(stats, genome),
      ToxinPenalty(|toxicHits|, genome.immunity), RepetitionPenalty(stats))
    ensures reasons == PushedReasons(|usedNutrients|, |nutrients|, multiplier, stats, genome, |toxicHits| > 0)
  {
    reasons := [];
    var metabolismScore, structureScore, repetitionPenalty;
    ghost var used, expected := |usedNutrients|, |nutrients|;
    metabolismScore, reasons := EvaluateMetabolism(usedNutrients, |nutrients|, multiplier, reasons);
    assert reasons == MetabolismReasons(used, expected, multiplier);
    structureScore, reasons := EvaluateStructure(stats, genome, reasons);

    toxicHits := FindToxicHits(poem, toxicWords);
    ToxicIff(poem, toxicWords);
    var toxinPenalty;
    toxinPenalty, reasons := ChargeToxins(toxicHits, genome.immunity, reasons);

    repetitionPenalty, reasons := EvaluateRepetition(stats, reasons);
    b := ScoreBreakdown(metabolismScore, structureScore, toxinPenalty, repetitionPenalty);
  }

  /** What `diagnosePoem` returns, from its inputs: the four check scores,
      the trimmed toxic hits, the death verdict, the pushed reasons (or the
      single stable tag when none was pushed), the final score and the
      copied metrics. */
  function Diagnosed(poem: string, genome: Genome, nutrients: seq<string>, toxicWords: seq<string>,
                     usedNutrients: seq<string>, stats: PoemStats, multiplier: Option<real>): Diagnosis
  {
    var hits := FindToxicHits(poem, toxicWords);
    var isDead := |hits| > 0;
    var b := ScoreBreakdown(
      MetabolismScore(|usedNutrients|, |nutrients|, multiplier), StructureScore(stats, genome),
      ToxinPenalty(|hits|, genome.immunity), RepetitionPenalty(stats));
    var pushed := PushedReasons(|usedNutrients|, |nutrients|, multiplier, stats, genome, isDead);
    Diagnosis(FinalScore(isDead, RawScore(b)), b,
      Diag(if pushed == [] then [Stable] else pushed, isDead, hits, |nutrients|,
           Metrics(stats.lineCount, stats.averageLineLength, stats.uniqueTokenRatio, stats.longestRepeatRun)))
  }

  /** What a diagnosis guarantees its reader: a score in [0, 100]; a dead
      poem (one holding a toxic word, after trimming) scores 0 and was
      charged at least 80, a living one was charged nothing for toxins; the
      reasons are never empty, with the stable tag only on its own. */
  lemma DiagnosisGuarantees(poem: string, genome: Genome, nutrients: seq<string>, toxicWords: seq<string>,
                            usedNutrients: seq<string>, stats: PoemStats, multiplier: Option<real>)
    ensures var d := Diagnosed(poem, genome, nutrients, toxicWords, usedNutrients, stats, multiplier);
      && d.diag.toxicHits == FindToxicHits(poem, toxicWords)
      && (d.diag.isDead <==> exists w :: w in toxicWords && IsToxicHit(poem, Trim(w)))
      && (d.diag.isDead <==> |d.diag.toxicHits| > 0)
      && 0.0 <= d.score <= 100.0
      && (d.diag.isDead ==> d.score == 0.0 && d.scoreBreakdown.toxinPenalty >= 80.0)
      && (!d.diag.isDead ==> d.scoreBreakdown.toxinPenalty == 0.0)
      && d.diag.reasons != []
      && (Stable in d.diag.reasons <==> d.diag.reasons == [Stable])
      && d.diag.nutrientsExpected == |nutrients|
  {
    ToxicIff(poem, toxicWords);
  }

  /** `diagnosePoem({ poem, genome, nutrients, toxicWords, meta, environment })`,
      with `meta.usedNutrients`, `meta.stats` and the environment's
      `metabolismMultiplier` passed on their own. */
  method DiagnosePoem(poem: string, genome: Genome, nutrients: seq<string>, toxicWords: seq<string>,
                      usedNutrients: seq<string>, stats: PoemStats, multiplier: Option<real>)
    returns (d: Diagnosis)
    ensures d == Diagnosed(poem, genome, nutrients, toxicWords, usedNutrients, stats, multiplier)
  {
    var b, toxicHits, reasons := RunChecks(poem, genome, nutrients, toxicWords, usedNutrients, stats, multiplier);
    var isDead := |toxicHits| > 0;
    var score := FinalScore(isDead, RawScore(b));

    if |reasons| == 0 {
      reasons := reasons + [Stable];
    }

    d := Diagnosis(score, b,
      Diag(reasons, isDead, toxicHits, |nutrients|,
           Metrics(stats.lineCount, stats.averageLineLength, stats.uniqueTokenRatio, stats.longestRepeatRun)));
  }
}
