/** One generation of the simulation: every individual writes a poem, the
    poem is diagnosed, the individual's energy is settled (starvation kills),
    and the records are ranked by score (`evaluateGeneration`,
    `computeEnergyDelta`, `initializeIndividuals`, `buildSpecimens`). */
module Generations {
  import opened Wrappers
  import opened Numeric
  import opened Text
  import opened Random
  import opened Genomes
  import opened Poems
  import opened Health
  import opened Configs
  import opened Environment

  // ------------------------------------------------------------ individuals

  /** An individual entering a generation: its id, its parents' ids, its age
      in generations and the energy it carries. */
  datatype Member = Member(id: string, parentIds: seq<string>, age: nat, energy: real, genome: Genome)

  /** `initializeIndividuals(individuals, lifeConfig)`: the founders start at
      age 0 with the (rounded) initial energy. */
  function InitializeIndividuals(founders: seq<Individual>, life: LifeConfig): (ms: seq<Member>)
    ensures |ms| == |founders|
    ensures forall i :: 0 <= i < |ms| ==>
      && ms[i].id == founders[i].id && ms[i].parentIds == founders[i].parentIds
      && ms[i].genome == founders[i].genome
      && ms[i].age == 0 && ms[i].energy == Round3(life.initialEnergy)
  {
    seq(|founders|, i requires 0 <= i < |founders| =>
      Member(founders[i].id, founders[i].parentIds, 0, Round3(life.initialEnergy), founders[i].genome))
  }

  // ------------------------------------------------------------ energy

  /** The energy a living individual gains: `round(score * scoreToEnergyScale
      - baseMetabolismCost + (metabolismMultiplier - 1) * seasonEnergyScale)`. */
  function LivingDelta(score: real, scale: real, cost: real, multiplier: real, seasonScale: real): real {
    Round3(score * scale - cost + (multiplier - 1.0) * seasonScale)
  }

  /** `computeEnergyDelta({ diagnosis, environment, lifeConfig })`: a dead
      poem costs the whole maximum energy. */
  function EnergyDelta(isDead: bool, score: real, multiplier: real, life: LifeConfig): (r: real)
    ensures isDead ==> r == -life.maxEnergy
  {
    if isDead then -life.maxEnergy
    else LivingDelta(score, life.scoreToEnergyScale, life.baseMetabolismCost, multiplier, life.seasonEnergyScale)
  }

  /** A better score never earns less energy. */
  lemma DeltaRisesWithScore(s1: real, s2: real, scale: real, cost: real, multiplier: real, seasonScale: real)
    requires s1 <= s2 && 0.0 <= scale
    ensures LivingDelta(s1, scale, cost, multiplier, seasonScale) <= LivingDelta(s2, scale, cost, multiplier, seasonScale)
  {
    MulLe(s1, s2, scale);
    Round3Mono(s1 * scale - cost + (multiplier - 1.0) * seasonScale, s2 * scale - cost + (multiplier - 1.0) * seasonScale);
  }

  /** A kinder season (a higher metabolism multiplier) never earns less
      energy. */
  lemma DeltaRisesWithMultiplier(score: real, scale: real, cost: real, m1: real, m2: real, seasonScale: real)
    requires m1 <= m2 && 0.0 <= seasonScale
    ensures LivingDelta(score, scale, cost, m1, seasonScale) <= LivingDelta(score, scale, cost, m2, seasonScale)
  {
    MulLe(m1 - 1.0, m2 - 1.0, seasonScale);
    Round3Mono(score * scale - cost + (m1 - 1.0) * seasonScale, score * scale - cost + (m2 - 1.0) * seasonScale);
  }

  /** The same facts for a diagnosed individual under a normalised life
      configuration. */
  lemma EnergyDeltaMonotone(s1: real, s2: real, m1: real, m2: real, life: LifeConfig)
    requires life.Valid() && s1 <= s2 && m1 <= m2
    ensures EnergyDelta(false, s1, m1, life) <= EnergyDelta(false, s2, m2, life)
  {
    DeltaRisesWithScore(s1, s2, life.scoreToEnergyScale, life.baseMetabolismCost, m1, life.seasonEnergyScale);
    DeltaRisesWithMultiplier(s2, life.scoreToEnergyScale, life.baseMetabolismCost, m1, m2, life.seasonEnergyScale);
  }

  /** `clampNumber(individual.energy, 0, maxEnergy, initialEnergy)`: the
      energy carried is a number, so the fallback never applies. */
  function EnergyBefore(energy: real, life: LifeConfig): (r: real)
    requires life.Valid()
    ensures 0.0 <= r <= life.maxEnergy
  {
    ClampNumber(Some(energy), 0.0, life.maxEnergy, life.initialEnergy)
  }

  /** The energy a living (not poisoned) individual is left with, before
      rounding. */
  function LivingAfter(energy: real, score: real, multiplier: real, life: LifeConfig): (r: real)
    requires life.Valid()
    ensures 0.0 <= r <= life.maxEnergy
  {
    ClampNumber(Some(EnergyBefore(energy, life) + EnergyDelta(false, score, multiplier, life)), 0.0, life.maxEnergy, 0.0)
  }

  // ------------------------------------------------------------ records

  datatype Energy = Energy(before: real, delta: real, after: real)

  /** One evaluated individual; `poem` holds the text and the poem's `meta`
      (used nutrients and statistics). */
  datatype Record = Record(
    runId: string,
    generation: nat,
    individualId: string,
    parentIds: seq<string>,
    age: nat,
    genome: Genome,
    nutrients: seq<string>,
    toxicWords: seq<string>,
    environment: GenerationEnvironment,
    poem: Poem,
    energy: Energy,
    score: real,
    scoreBreakdown: ScoreBreakdown,
    diag: Diag)

  /** The record `evaluateGeneration` builds for individual m from its poem
      and its diagnosis d. */
  function Settle(runId: string, generation: nat, m: Member, fed: seq<string>, toxicWords: seq<string>,
                  env: GenerationEnvironment, poem: Poem, d: Diagnosis, life: LifeConfig): Record
    requires life.Valid()
  {
    var before := EnergyBefore(m.energy, life);
    var delta := EnergyDelta(d.diag.isDead, d.score, env.metabolismMultiplier, life);
    var after := if d.diag.isDead then 0.0
                 else ClampNumber(Some(before + delta), 0.0, life.maxEnergy, 0.0);
    var starved := !d.diag.isDead && after <= life.energyDeathThreshold;
    var isDead := d.diag.isDead || starved;
    var reasons := d.diag.reasons + (if starved then [EnergyDepleted] else []);
    Record(runId, generation, m.id, m.parentIds, m.age, m.genome, fed, toxicWords, env, poem,
      Energy(Round3(before), Round3(if isDead then -before else delta), Round3(if isDead then 0.0 else after)),
      if isDead then 0.0 else d.score,
      d.scoreBreakdown,
      d.diag.(isDead := isDead, reasons := reasons))
  }

  /** What a settled record holds: the member's identity, genome and age,
      the generation's inputs, the poem and the diagnosis's breakdown, hits
      and metrics. An individual the diagnosis left alive starves when its
      energy falls to the death threshold: it is then dead too, and
      "エネルギー枯渇" follows the diagnostic reasons. A dead record scores 0,
      ends with no energy and loses exactly what it had; every energy lies
      in [0, maxEnergy] (to the rounding's grid). */
  lemma SettleGuarantees(runId: string, generation: nat, m: Member, fed: seq<string>, toxicWords: seq<string>,
                         env: GenerationEnvironment, poem: Poem, d: Diagnosis, life: LifeConfig)
    requires life.Valid()
    ensures var r := Settle(runId, generation, m, fed, toxicWords, env, poem, d, life);
      && r.runId == runId && r.generation == generation && r.individualId == m.id
      && r.parentIds == m.parentIds && r.age == m.age && r.genome == m.genome
      && r.nutrients == fed && r.toxicWords == toxicWords && r.environment == env && r.poem == poem
      && r.scoreBreakdown == d.scoreBreakdown
      && r.diag.toxicHits == d.diag.toxicHits && r.diag.nutrientsExpected == d.diag.nutrientsExpected
      && r.diag.metrics == d.diag.metrics
      && r.energy.before == Round3(EnergyBefore(m.energy, life))
      && 0.0 <= r.energy.before <= Round3(life.maxEnergy)
      && 0.0 <= r.energy.after <= Round3(life.maxEnergy)
      && (r.diag.isDead ==> r.score == 0.0 && r.energy.after == 0.0 && r.energy.delta == -r.energy.before)
      && (!r.diag.isDead ==>
           && r.score == d.score
           && r.energy.delta == Round3(EnergyDelta(false, d.score, env.metabolismMultiplier, life))
           && r.energy.after == Round3(LivingAfter(m.energy, d.score, env.metabolismMultiplier, life)))
      && (d.diag.isDead ==> r.diag.isDead && r.diag.reasons == d.diag.reasons)
      && (!d.diag.isDead ==>
           (r.diag.isDead <==> LivingAfter(m.energy, d.score, env.metabolismMultiplier, life) <= life.energyDeathThreshold))
      && (!d.diag.isDead ==> r.diag.reasons == d.diag.reasons + (if r.diag.isDead then [EnergyDepleted] else []))
  {
    var before := EnergyBefore(m.energy, life);
    var delta := EnergyDelta(d.diag.isDead, d.score, env.metabolismMultiplier, life);
    var after := if d.diag.isDead then 0.0
                 else ClampNumber(Some(before + delta), 0.0, life.maxEnergy, 0.0);
    ZeroRounds();
    Round3Neg(before);
    Round3Mono(before, life.maxEnergy);
    Round3Mono(after, life.maxEnergy);
    Round3Mono(0.0, before);
    Round3Mono(0.0, after);
  }

  /** The nutrients a generation feeds on: the active ones, or all of them
      when none is active. */
  function Fed(env: GenerationEnvironment): (r: seq<string>)
    ensures env.activeNutrients != [] ==> r == env.activeNutrients
    ensures env.activeNutrients == [] ==> r == env.baseNutrients
  {
    if |env.activeNutrients| > 0 then env.activeNutrients else env.baseNutrients
  }

  /** The `records.map` callback of `evaluateGeneration`: the poem, its
      diagnosis under the generation's multiplier, and the settled record. */
  method EvaluateIndividual(runId: string, generation: nat, m: Member, toxicWords: seq<string>, style: StyleInput,
                            env: GenerationEnvironment, life: LifeConfig, rng: Rng)
    returns (r: Record, ghost poem: Poem, ghost d: Diagnosis)
    requires rng.Valid() && life.Valid()
    requires m.genome.lines >= 1 || NormalizeWords(Fed(env)) == []
    modifies rng
    ensures rng.Valid() && rng.draws >= old(rng.draws)
    ensures AllEvaluated([r], [poem], [d], [m], runId, generation, toxicWords, env, life)
    ensures Balanced(r, life)
    ensures NormalizeWords(Fed(env)) != [] ==> poem.usedNutrients != []
  {
    var fed := Fed(env);
    var p, bases, tokens, conjunctionLines, composed, forced, forceAt, lines, ending := GeneratePoem(m.genome, fed, style, rng);
    var diagnosis := DiagnosePoem(p.text, m.genome, fed, toxicWords, p.usedNutrients, p.stats,
                                  Some(env.metabolismMultiplier));
    r := Settle(runId, generation, m, fed, toxicWords, env, p, diagnosis, life);
    SettleGuarantees(runId, generation, m, fed, toxicWords, env, p, diagnosis, life);
    poem, d := p, diagnosis;
    EvaluatedOne(r, poem, d, m, runId, generation, toxicWords, env, life);
  }

  // ------------------------------------------------------------ ranking

  /** Each record scores at least as much as the next. */
  predicate Descending(rs: seq<Record>) {
    forall i :: 0 < i < |rs| ==> rs[i - 1].score >= rs[i].score
  }

  /** Insert x into a descending list behind every record scoring at least
      as much, so that records with equal scores keep their order. */
  function Insert(x: Record, rs: seq<Record>): (r: seq<Record>)
    requires Descending(rs)
    ensures Descending(r)
    ensures |r| == |rs| + 1
    ensures r[0] == x || (rs != [] && r[0] == rs[0])
  {
    if rs == [] then [x]
    else if rs[0].score >= x.score then [rs[0]] + Insert(x, rs[1..])
    else [x] + rs
  }

  /** Insertion adds x and keeps every record. */
  lemma {:induction false} InsertPermutes(x: Record, rs: seq<Record>)
    requires Descending(rs)
    ensures multiset(Insert(x, rs)) == multiset(rs) + multiset{x}
  {
    if rs != [] && rs[0].score >= x.score {
      InsertPermutes(x, rs[1..]);
      assert rs == [rs[0]] + rs[1..];
    }
  }

  /** `[...records].sort((left, right) => right.score - left.score)`: the
      sort is stable, so this is insertion sort by descending score. */
  function RankByScore(rs: seq<Record>): (r: seq<Record>)
    ensures Descending(r)
    ensures |r| == |rs|
  {
    if rs == [] then []
    else Insert(rs[|rs| - 1], RankByScore(rs[..|rs| - 1]))
  }

  /** The ranking is a permutation of the records. */
  lemma {:induction false} RankPermutes(rs: seq<Record>)
    ensures multiset(RankByScore(rs)) == multiset(rs)
  {
    if rs != [] {
      RankPermutes(rs[..|rs| - 1]);
      InsertPermutes(rs[|rs| - 1], RankByScore(rs[..|rs| - 1]));
      assert rs == rs[..|rs| - 1] + [rs[|rs| - 1]];
    }
  }

  /** A descending list is ordered pairwise: every record scores at least as
      much as every later one. */
  lemma {:induction false} DescendingPairs(rs: seq<Record>, i: nat, j: nat)
    requires Descending(rs) && i <= j < |rs|
    ensures rs[i].score >= rs[j].score
    decreases j - i
  {
    if i < j {
      DescendingPairs(rs, i + 1, j);
    }
  }

  /** The ranking puts a record with the highest score first. */
  lemma RankedFirstIsBest(rs: seq<Record>)
    requires rs != []
    ensures forall r :: r in rs ==> RankByScore(rs)[0].score >= r.score
  {
    var ranked := RankByScore(rs);
    RankPermutes(rs);
    forall r | r in rs
      ensures ranked[0].score >= r.score
    {
      assert r in multiset(ranked);
      var j :| 0 <= j < |ranked| && ranked[j] == r;
      DescendingPairs(ranked, 0, j);
    }
  }

  function Living(rs: seq<Record>): (r: seq<Record>)
    ensures |r| <= |rs|
    ensures forall x :: x in r <==> x in rs && !x.diag.isDead
  {
    if rs == [] then []
    else
      var rest := Living(rs[..|rs| - 1]);
      assert forall x :: x in rs <==> x in rs[..|rs| - 1] || x == rs[|rs| - 1];
      if rs[|rs| - 1].diag.isDead then rest else rest + [rs[|rs| - 1]]
  }

  /** What `evaluateGeneration` returns. */
  datatype Evaluation = Evaluation(
    generation: nat,
    records: seq<Record>,
    winners: seq<Record>,
    livingCount: nat,
    deadCount: nat,
    environment: GenerationEnvironment)

  /** The statistics of each poem are those of its text. */
  ghost predicate StatsOfTexts(ps: seq<Poem>) {
    forall j :: 0 <= j < |ps| ==> ps[j].stats == PoemStatsOf(ps[j].text)
  }

  /** d is the diagnosis of poem p, written for member m, under the
      generation's multiplier. */
  ghost predicate DiagnosisOf(d: Diagnosis, p: Poem, m: Member, toxicWords: seq<string>, env: GenerationEnvironment)
  {
    d == Diagnosed(p.text, m.genome, Fed(env), toxicWords, p.usedNutrients, p.stats, Some(env.metabolismMultiplier))
  }

  /** Diagnosis j is that of poem j, written for member j. */
  ghost predicate DiagnosesOf(ds: seq<Diagnosis>, ps: seq<Poem>, ms: seq<Member>, toxicWords: seq<string>,
                              env: GenerationEnvironment)
  {
    && |ds| == |ps| == |ms|
    && forall j :: 0 <= j < |ds| ==> DiagnosisOf(ds[j], ps[j], ms[j], toxicWords, env)
  }

  /** r is member m settled with poem p and diagnosis d. */
  ghost predicate SettledAs(r: Record, p: Poem, d: Diagnosis, m: Member, runId: string, generation: nat,
                            toxicWords: seq<string>, env: GenerationEnvironment, life: LifeConfig)
    requires life.Valid()
  {
    r == Settle(runId, generation, m, Fed(env), toxicWords, env, p, d, life)
  }

  /** Record j is member j settled with poem j and diagnosis j. */
  ghost predicate SettledFrom(rs: seq<Record>, ps: seq<Poem>, ds: seq<Diagnosis>, ms: seq<Member>, runId: string,
                              generation: nat, toxicWords: seq<string>, env: GenerationEnvironment, life: LifeConfig)
    requires life.Valid()
  {
    && |rs| == |ps| == |ds| == |ms|
    && forall j :: 0 <= j < |rs| ==> SettledAs(rs[j], ps[j], ds[j], ms[j], runId, generation, toxicWords, env, life)
  }

  /** Record j was built, as `evaluateGeneration` builds it, from member j,
      its poem `ps[j]` (whose statistics are those of its text) and
      the diagnosis `ds[j]` of that poem under the generation's multiplier. */
  ghost predicate AllEvaluated(rs: seq<Record>, ps: seq<Poem>, ds: seq<Diagnosis>, ms: seq<Member>, runId: string,
                               generation: nat, toxicWords: seq<string>, env: GenerationEnvironment, life: LifeConfig)
    requires life.Valid()
  {
    && StatsOfTexts(ps)
    && DiagnosesOf(ds, ps, ms, toxicWords, env)
    && SettledFrom(rs, ps, ds, ms, runId, generation, toxicWords, env, life)
  }

  /** Element j of a concatenation, from its first part. */
  lemma PickFirst<T>(xs: seq<T>, ys: seq<T>, j: nat)
    requires j < |xs|
    ensures (xs + ys)[j] == xs[j]
  {
  }

  /** A prefix grown by the next element. */
  lemma TakeSnoc<T>(xs: seq<T>, i: nat)
    requires i < |xs|
    ensures xs[..i] + [xs[i]] == xs[..i + 1]
  {
  }

  /** The prefix as long as the sequence is the sequence. */
  lemma TakeAll<T>(xs: seq<T>)
    ensures xs[..|xs|] == xs
  {
  }

  /** The element of a one-element sequence. */
  lemma PickOnly<T>(x: T)
    ensures [x][0] == x
  {
  }

  /** Element j of a concatenation, from its second part. */
  lemma PickSecond<T>(xs: seq<T>, ys: seq<T>, j: nat)
    requires |xs| <= j < |xs| + |ys|
    ensures (xs + ys)[j] == ys[j - |xs|]
  {
  }

  lemma StatsSnoc(ps: seq<Poem>, qs: seq<Poem>)
    requires StatsOfTexts(ps) && StatsOfTexts(qs)
    ensures StatsOfTexts(ps + qs)
  {
    forall j | 0 <= j < |ps + qs|
      ensures (ps + qs)[j].stats == PoemStatsOf((ps + qs)[j].text)
    {
      if j < |ps| {
        PickFirst(ps, qs, j);
      } else {
        PickSecond(ps, qs, j);
      }
    }
  }

  /** A relation that holds pointwise on two triples of sequences holds
      pointwise on their concatenation. */
  lemma PointwiseSnoc<A, B, C>(P: (A, B, C) -> bool, xs: seq<A>, ys: seq<B>, zs: seq<C>,
                               us: seq<A>, vs: seq<B>, ws: seq<C>)
    requires |xs| == |ys| == |zs| && |us| == |vs| == |ws|
    requires forall j :: 0 <= j < |xs| ==> P(xs[j], ys[j], zs[j])
    requires forall j :: 0 <= j < |us| ==> P(us[j], vs[j], ws[j])
    ensures forall j :: 0 <= j < |xs + us| ==> P((xs + us)[j], (ys + vs)[j], (zs + ws)[j])
  {
    forall j | 0 <= j < |xs + us|
      ensures P((xs + us)[j], (ys + vs)[j], (zs + ws)[j])
    {
      if j < |xs| {
        PickFirst(xs, us, j); PickFirst(ys, vs, j); PickFirst(zs, ws, j);
      } else {
        PickSecond(xs, us, j); PickSecond(ys, vs, j); PickSecond(zs, ws, j);
      }
    }
  }

  lemma DiagnosesSnoc(ds: seq<Diagnosis>, ps: seq<Poem>, ms: seq<Member>, es: seq<Diagnosis>, qs: seq<Poem>,
                      ns: seq<Member>, toxicWords: seq<string>, env: GenerationEnvironment)
    requires DiagnosesOf(ds, ps, ms, toxicWords, env) && DiagnosesOf(es, qs, ns, toxicWords, env)
    ensures DiagnosesOf(ds + es, ps + qs, ms + ns, toxicWords, env)
  {
    PointwiseSnoc((d, p, m) => DiagnosisOf(d, p, m, toxicWords, env), ds, ps, ms, es, qs, ns);
  }

  lemma SettledSnoc(rs: seq<Record>, ps: seq<Poem>, ds: seq<Diagnosis>, ms: seq<Member>,
                    ss: seq<Record>, qs: seq<Poem>, es: seq<Diagnosis>, ns: seq<Member>, runId: string,
                    generation: nat, toxicWords: seq<string>, env: GenerationEnvironment, life: LifeConfig)
    requires life.Valid()
    requires SettledFrom(rs, ps, ds, ms, runId, generation, toxicWords, env, life)
    requires SettledFrom(ss, qs, es, ns, runId, generation, toxicWords, env, life)
    ensures SettledFrom(rs + ss, ps + qs, ds + es, ms + ns, runId, generation, toxicWords, env, life)
  {
    forall j | 0 <= j < |rs + ss|
      ensures SettledAs((rs + ss)[j], (ps + qs)[j], (ds + es)[j], (ms + ns)[j], runId, generation, toxicWords, env, life)
    {
      if j < |rs| {
        PickFirst(rs, ss, j); PickFirst(ps, qs, j); PickFirst(ds, es, j); PickFirst(ms, ns, j);
      } else {
        PickSecond(rs, ss, j); PickSecond(ps, qs, j); PickSecond(ds, es, j); PickSecond(ms, ns, j);
      }
    }
  }

  /** Evaluating members one after another evaluates them all. */
  lemma EvaluatedSnoc(rs: seq<Record>, ps: seq<Poem>, ds: seq<Diagnosis>, ms: seq<Member>,
                      ss: seq<Record>, qs: seq<Poem>, es: seq<Diagnosis>, ns: seq<Member>, runId: string,
                      generation: nat, toxicWords: seq<string>, env: GenerationEnvironment, life: LifeConfig)
    requires life.Valid()
    requires AllEvaluated(rs, ps, ds, ms, runId, generation, toxicWords, env, life)
    requires AllEvaluated(ss, qs, es, ns, runId, generation, toxicWords, env, life)
    ensures AllEvaluated(rs + ss, ps + qs, ds + es, ms + ns, runId, generation, toxicWords, env, life)
  {
    StatsSnoc(ps, qs);
    DiagnosesSnoc(ds, ps, ms, es, qs, ns, toxicWords, env);
    SettledSnoc(rs, ps, ds, ms, ss, qs, es, ns, runId, generation, toxicWords, env, life);
  }

  /** One member, its poem, the poem's diagnosis and the settled record
      make a one-element evaluation. */
  lemma EvaluatedOne(r: Record, poem: Poem, d: Diagnosis, m: Member, runId: string, generation: nat,
                     toxicWords: seq<string>, env: GenerationEnvironment, life: LifeConfig)
    requires life.Valid()
    requires poem.stats == PoemStatsOf(poem.text)
    requires d == Diagnosed(poem.text, m.genome, Fed(env), toxicWords, poem.usedNutrients, poem.stats,
                            Some(env.metabolismMultiplier))
    requires r == Settle(runId, generation, m, Fed(env), toxicWords, env, poem, d, life)
    ensures AllEvaluated([r], [poem], [d], [m], runId, generation, toxicWords, env, life)
  {
    StatsOne(poem);
    DiagnosedOne(d, poem, m, toxicWords, env);
    SettledOne(r, poem, d, m, runId, generation, toxicWords, env, life);
  }

  lemma StatsOne(poem: Poem)
    requires poem.stats == PoemStatsOf(poem.text)
    ensures StatsOfTexts([poem])
  {
    PickOnly(poem);
  }

  lemma DiagnosedOne(d: Diagnosis, poem: Poem, m: Member, toxicWords: seq<string>, env: GenerationEnvironment)
    requires d == Diagnosed(poem.text, m.genome, Fed(env), toxicWords, poem.usedNutrients, poem.stats,
                            Some(env.metabolismMultiplier))
    ensures DiagnosesOf([d], [poem], [m], toxicWords, env)
  {
    PickOnly(d); PickOnly(poem); PickOnly(m);
  }

  lemma SettledOne(r: Record, poem: Poem, d: Diagnosis, m: Member, runId: string, generation: nat,
                   toxicWords: seq<string>, env: GenerationEnvironment, life: LifeConfig)
    requires life.Valid()
    requires r == Settle(runId, generation, m, Fed(env), toxicWords, env, poem, d, life)
    ensures SettledFrom([r], [poem], [d], [m], runId, generation, toxicWords, env, life)
  {
    PickOnly(r); PickOnly(poem); PickOnly(d); PickOnly(m);
  }

  /** The energy account of a record: what it ends with lies between 0 and
      the maximum, and a dead record scores 0, ends with nothing and loses
      what it had. */
  predicate Balanced(r: Record, life: LifeConfig) {
    && 0.0 <= r.energy.before <= Round3(life.maxEnergy)
    && 0.0 <= r.energy.after <= Round3(life.maxEnergy)
    && (r.diag.isDead ==> r.score == 0.0 && r.energy.after == 0.0 && r.energy.delta == -r.energy.before)
  }

  /** Ranking keeps every record, so every ranked record is balanced. */
  lemma RankedBalanced(rs: seq<Record>, life: LifeConfig)
    requires forall j :: 0 <= j < |rs| ==> Balanced(rs[j], life)
    ensures forall r :: r in RankByScore(rs) ==> Balanced(r, life)
  {
    RankPermutes(rs);
    forall r | r in RankByScore(rs)
      ensures Balanced(r, life)
    {
      assert r in multiset(rs);
    }
  }

  /** The `individuals.map` loop of `evaluateGeneration`: one record per
      individual, in the order of the individuals. */
  method EvaluateAll(runId: string, generation: nat, individuals: seq<Member>, toxicWords: seq<string>,
                     style: StyleInput, env: GenerationEnvironment, life: LifeConfig, rng: Rng)
    returns (evaluated: seq<Record>, ghost poems: seq<Poem>, ghost diagnoses: seq<Diagnosis>)
    requires rng.Valid() && life.Valid()
    requires forall i :: 0 <= i < |individuals| ==> individuals[i].genome.lines >= 1
    modifies rng
    ensures rng.Valid() && rng.draws >= old(rng.draws)
    ensures AllEvaluated(evaluated, poems, diagnoses, individuals, runId, generation, toxicWords, env, life)
    ensures forall j :: 0 <= j < |evaluated| ==> Balanced(evaluated[j], life)
  {
    evaluated := [];
    poems, diagnoses := [], [];
    var i := 0;
    while i < |individuals|
      invariant 0 <= i <= |individuals| && rng.Valid() && rng.draws >= old(rng.draws)
      invariant AllEvaluated(evaluated, poems, diagnoses, individuals[..i], runId, generation, toxicWords, env, life)
      invariant forall j :: 0 <= j < |evaluated| ==> Balanced(evaluated[j], life)
    {
      var r, poem, d := EvaluateIndividual(runId, generation, individuals[i], toxicWords, style, env, life, rng);
      EvaluatedSnoc(evaluated, poems, diagnoses, individuals[..i], [r], [poem], [d], [individuals[i]],
                    runId, generation, toxicWords, env, life);
      TakeSnoc(individuals, i);
      evaluated := evaluated + [r];
      poems, diagnoses := poems + [poem], diagnoses + [d];
      i := i + 1;
    }
    TakeAll(individuals);
  }

  /** `evaluateGeneration({ runId, generation, individuals, toxicWords,
      poemStyleConfig, environment, lifeConfig, rng })`. `evaluated` lists the
      records in the order of the individuals, before ranking; record i was
      built from individual i, its poem `poems[i]` and its diagnosis
      `diagnoses[i]`. */
  method EvaluateGeneration(runId: string, generation: nat, individuals: seq<Member>, toxicWords: seq<string>,
                            style: StyleInput, env: GenerationEnvironment, life: LifeConfig, rng: Rng)
    returns (ev: Evaluation, evaluated: seq<Record>, ghost poems: seq<Poem>, ghost diagnoses: seq<Diagnosis>)
    requires rng.Valid() && life.Valid()
    requires forall i :: 0 <= i < |individuals| ==> individuals[i].genome.lines >= 1
    modifies rng
    ensures rng.Valid() && rng.draws >= old(rng.draws)
    ensures ev.generation == generation && ev.environment == env
    ensures ev.records == RankByScore(evaluated)
    ensures Descending(ev.records) && multiset(ev.records) == multiset(evaluated)
    ensures ev.winners == ev.records[..MinInt(3, |ev.records|)]
    ensures ev.livingCount == |Living(evaluated)|
    ensures forall j :: 0 <= j < |evaluated| ==> Balanced(evaluated[j], life)
    ensures forall r :: r in ev.records ==> Balanced(r, life)
    ensures AllEvaluated(evaluated, poems, diagnoses, individuals, runId, generation, toxicWords, env, life)
    ensures |ev.records| == |individuals| && ev.livingCount + ev.deadCount == |individuals|
  {
    evaluated, poems, diagnoses := EvaluateAll(runId, generation, individuals, toxicWords, style, env, life, rng);
    var ranked := RankByScore(evaluated);
    var living := |Living(evaluated)|;
    ev := Evaluation(generation, ranked, ranked[..MinInt(3, |ranked|)], living, |evaluated| - living, env);
    RankedBalanced(evaluated, life);
    RankPermutes(evaluated);
  }

  // ------------------------------------------------------------ specimens

  /** A winner kept for the gallery. */
  datatype Specimen = Specimen(id: string, generation: nat, rank: nat, title: string,
                               individualId: string, score: real, poem: string)

  function SpecimenId(generation: nat, rank: nat): string {
    "specimen-g" + NatToString(generation) + "-w" + NatToString(rank)
  }

  function SpecimenTitle(generation: nat, rank: nat): string {
    "第" + NatToString(generation) + "世代 / 勝者" + NatToString(rank)
  }

  /** The specimen of the winner at `index` (from 0) of a generation. */
  function SpecimenOf(ev: Evaluation, index: nat): (s: Specimen)
    requires index < |ev.winners|
    ensures s.rank == index + 1 && s.generation == ev.generation
    ensures s.individualId == ev.winners[index].individualId && s.score == ev.winners[index].score
  {
    var w := ev.winners[index];
    Specimen(SpecimenId(ev.generation, index + 1), ev.generation, index + 1,
      SpecimenTitle(ev.generation, index + 1), w.individualId, w.score, w.poem.text)
  }

  /** The specimens of every generation's winners, generation by
      generation, each in rank order. */
  function SpecimensOf(evs: seq<Evaluation>): (r: seq<Specimen>)
  {
    if evs == [] then []
    else SpecimensOf(evs[..|evs| - 1]) + seq(|evs[|evs| - 1].winners|, k requires 0 <= k < |evs[|evs| - 1].winners| => SpecimenOf(evs[|evs| - 1], k))
  }

  function WinnerCount(evs: seq<Evaluation>): nat {
    if evs == [] then 0 else WinnerCount(evs[..|evs| - 1]) + |evs[|evs| - 1].winners|
  }

  /** There is one specimen per winner, and each one's rank says where its
      winner stood. */
  lemma {:induction false} SpecimensCount(evs: seq<Evaluation>)
    ensures |SpecimensOf(evs)| == WinnerCount(evs)
    ensures forall s :: s in SpecimensOf(evs) ==> 1 <= s.rank
  {
    if evs != [] {
      SpecimensCount(evs[..|evs| - 1]);
    }
  }

  /** `buildSpecimens(generations)`. */
  method BuildSpecimens(evs: seq<Evaluation>) returns (specimens: seq<Specimen>)
    ensures specimens == SpecimensOf(evs)
    ensures |specimens| == WinnerCount(evs)
  {
    specimens := [];
    var g := 0;
    while g < |evs|
      invariant 0 <= g <= |evs|
      invariant specimens == SpecimensOf(evs[..g])
    {
      var ev := evs[g];
      var k := 0;
      ghost var before := specimens;
      while k < |ev.winners|
        invariant 0 <= k <= |ev.winners|
        invariant specimens == before + seq(k, i requires 0 <= i < k => SpecimenOf(ev, i))
      {
        specimens := specimens + [SpecimenOf(ev, k)];
        k := k + 1;
      }
      assert evs[..g + 1][..g] == evs[..g];
      g := g + 1;
    }
    assert evs[..g] == evs;
    SpecimensCount(evs);
  }
}
