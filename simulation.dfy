// The run driver: `runSimulation` of public/app/domain/evolution.js, which
// seeds the generator, normalises the configs, creates the founders and then,
// generation by generation, resolves the environment, evaluates, updates the
// resource stress and breeds the next population.

module Simulation {
  import opened Wrappers
  import opened Numeric
  import opened Text
  import opened Random
  import opened Genomes
  import opened Poems
  import opened Configs
  import opened Environment
  import opened Generations
  import opened Breeding

  /** What `runSimulation` returns. */
  datatype SimulationResult = SimulationResult(
    seed: Uint32,
    generations: seq<Evaluation>,
    records: seq<Record>,
    finalGeneration: Option<Evaluation>,
    specimens: seq<Specimen>,
    evolutionConfig: EvolutionConfig,
    poemStyleConfig: StyleConfig,
    environmentConfig: EnvironmentConfig,
    lifeConfig: LifeConfig)

  /** `generations.flatMap((generation) => generation.records)`. */
  function FlatRecords(evs: seq<Evaluation>): (r: seq<Record>)
    ensures |evs| == 0 ==> r == []
  {
    if evs == [] then [] else FlatRecords(evs[..|evs| - 1]) + evs[|evs| - 1].records
  }

  /** The flattened list holds every record of every generation, in order:
      generation i's records start where the earlier generations end. */
  lemma {:induction false} FlatRecordsLayout(evs: seq<Evaluation>, i: nat)
    requires i < |evs|
    ensures |FlatRecords(evs[..i])| + |evs[i].records| <= |FlatRecords(evs)|
    ensures FlatRecords(evs)[|FlatRecords(evs[..i])|..|FlatRecords(evs[..i])| + |evs[i].records|] == evs[i].records
  {
    var init := evs[..|evs| - 1];
    assert evs[..|evs|] == evs;
    if i < |evs| - 1 {
      FlatRecordsLayout(init, i);
      assert init[..i] == evs[..i];
      var start := |FlatRecords(evs[..i])|;
      var front := FlatRecords(init);
      assert FlatRecords(evs) == front + evs[|evs| - 1].records;
      assert FlatRecords(evs)[start..start + |evs[i].records|] == front[start..start + |evs[i].records|];
    } else {
      assert init == evs[..i];
    }
  }

  /** What each evaluation promises about its records: ranked by score,
      the first three as winners, the counts adding up, every record's
      energy within bounds and the dead at score 0. */
  ghost predicate Sound(ev: Evaluation, generation: nat, size: nat, life: LifeConfig) {
    && ev.generation == generation
    && |ev.records| == size
    && Descending(ev.records)
    && ev.winners == ev.records[..MinInt(3, size)]
    && ev.livingCount + ev.deadCount == size
    && forall r :: r in ev.records ==> Balanced(r, life)
  }

  /** The population size the generation after `ev` is bred to. */
  function NextSize(ev: Evaluation, populationSize: nat, life: LifeConfig): nat
    requires life.Valid()
  {
    EstimateNextPopulation(ev.records, Living(ev.records), populationSize, life)
  }

  /** The generations of a run: numbered from 1, the first of the initial
      size and each later one of the size estimated from the one before. */
  ghost predicate Chained(gens: seq<Evaluation>, populationSize: nat, life: LifeConfig)
    requires life.Valid()
  {
    forall i :: 0 <= i < |gens| ==>
      Sound(gens[i], i + 1, if i == 0 then populationSize else NextSize(gens[i - 1], populationSize, life), life)
  }

  lemma ChainedSnoc(gens: seq<Evaluation>, populationSize: nat, life: LifeConfig, ev: Evaluation)
    requires life.Valid() && Chained(gens, populationSize, life)
    requires Sound(ev, |gens| + 1, if gens == [] then populationSize else NextSize(gens[|gens| - 1], populationSize, life), life)
    ensures Chained(gens + [ev], populationSize, life)
  {
    var next := gens + [ev];
    forall i | 0 <= i < |next|
      ensures Sound(next[i], i + 1, if i == 0 then populationSize else NextSize(next[i - 1], populationSize, life), life)
    {
      if i < |gens| {
        assert next[i] == gens[i];
        if i > 0 {
          assert next[i - 1] == gens[i - 1];
        }
      } else if i > 0 {
        assert next[i - 1] == gens[|gens| - 1];
      }
    }
  }

  /** With a non-empty initial population no generation is empty, so
      breeding always has parents to pick from. */
  lemma NeverEmpty(ev: Evaluation, populationSize: nat, life: LifeConfig)
    requires life.Valid() && populationSize >= 1
    ensures NextSize(ev, populationSize, life) >= 1
  {
    EstimateBounds(ev.records, Living(ev.records), populationSize, life);
  }

  /** An empty generation under a variable population is followed by the
      minimum population, at least four; under a fixed one by none. */
  lemma EmptyGenerationTarget(ev: Evaluation, life: LifeConfig)
    requires life.Valid() && ev.records == []
    ensures life.variablePopulationEnabled ==> NextSize(ev, 0, life) >= 4
    ensures !life.variablePopulationEnabled ==> NextSize(ev, 0, life) == 0
  {
    EstimateBounds(ev.records, Living(ev.records), 0, life);
  }

  /** Every genome a generation starts from has at least one line. */
  ghost predicate Breedable(individuals: seq<Member>) {
    forall i :: 0 <= i < |individuals| ==> individuals[i].genome.lines >= 1
  }

  /** The founders of `runSimulation`: `initializeIndividuals(
      createInitialPopulation(populationSize, rng), lifeConfig)`. */
  method Founders(populationSize: nat, life: LifeConfig, rng: Rng) returns (individuals: seq<Member>)
    requires rng.Valid()
    modifies rng
    ensures rng.Valid() && rng.draws == old(rng.draws) + FieldCount * populationSize
    ensures |individuals| == populationSize && Breedable(individuals)
    ensures forall i :: 0 <= i < |individuals| ==>
      individuals[i].id == IndividualId(1, i + 1) && individuals[i].parentIds == [] && individuals[i].age == 0
  {
    var pop := CreateInitialPopulation(populationSize, rng);
    individuals := InitializeIndividuals(pop, life);
    forall i | 0 <= i < |individuals|
      ensures individuals[i].genome.lines >= 1
      ensures individuals[i].id == IndividualId(1, i + 1) && individuals[i].parentIds == []
    {
      assert pop[i] == Founder(i, Window(rng.seed, old(rng.draws) + FieldCount * i, FieldCount));
    }
  }

  /** The body of the generation loop up to breeding: resolve the
      environment, evaluate the individuals and update the resource stress
      from the nutrients the poems used. */
  method RunGeneration(runId: string, generation: nat, individuals: seq<Member>, toxicWords: seq<string>,
                       style: StyleConfig, nutrients: seq<string>, envConfig: EnvironmentConfig,
                       life: LifeConfig, state: ResourceState, rng: Rng)
    returns (ev: Evaluation, next: ResourceState)
    requires rng.Valid() && life.Valid() && envConfig.Valid() && generation >= 1 && Breedable(individuals)
    modifies rng
    ensures rng.Valid() && rng.draws >= old(rng.draws)
    ensures Sound(ev, generation, |individuals|, life)
    ensures ev.environment == ResolveGenerationEnvironment(generation, nutrients, envConfig, state)
    ensures forall w :: w in next <==> w in nutrients
    ensures forall w :: w in next ==> 0.0 <= next[w] <= 1.0
  {
    var env := ResolveGenerationEnvironment(generation, nutrients, envConfig, state);
    var evaluated;
    ghost var poems, diagnoses;
    ev, evaluated, poems, diagnoses := EvaluateGeneration(runId, generation, individuals, toxicWords,
      StyleInput(Some(style.particleRate), Some(style.conjunctionRate)), env, life, rng);
    var usedLists := seq(|ev.records|, i requires 0 <= i < |ev.records| => ev.records[i].poem.usedNutrients);
    next := EvolveResourceState(state, usedLists, nutrients, env.activeNutrients, envConfig.resourceDynamics);
  }

  /** The `breedNextPopulation` call of the generation loop. */
  method NextIndividuals(ev: Evaluation, nextGeneration: nat, populationSize: nat, c: EvolutionConfig,
                         life: LifeConfig, retryBudget: nat, rng: Rng)
    returns (next: Option<seq<Member>>)
    requires rng.Valid() && c.Valid() && life.Valid()
    modifies rng
    ensures rng.Valid() && rng.draws >= old(rng.draws)
    ensures next.None? <==> ev.records == [] && NextSize(ev, populationSize, life) > 0
    ensures next.Some? ==> |next.value| == NextSize(ev, populationSize, life) && Breedable(next.value)
  {
    ghost var parents;
    ghost var at := rng.draws;
    next, parents := BreedNextPopulation(ev.records, nextGeneration, populationSize, c, life, retryBudget, rng);
    if next.Some? {
      BredLines(next.value, parents, SelectedParents(ev.records, c, rng.seed, at, retryBudget).0, nextGeneration, life);
    }
  }

  /** `runSimulation({ runId, populationSize, generationCount, nutrients,
      toxicWords, seed, evolutionConfig, poemStyleConfig,
      environmentConfig, lifeConfig })`; `now` stands for `Date.now()` and
      `retryBudget` bounds each parent-selection retry loop. The source
      throws when it has to breed children from an empty generation; that
      is `None` here, and happens exactly when the run starts with no one,
      lasts at least two generations and lets the population vary. */
  method RunSimulation(runId: string, populationSize: nat, generationCount: nat, nutrients: seq<string>,
                       toxicWords: seq<string>, seed: SeedInput, now: int, evolutionInput: EvolutionInput,
                       styleInput: StyleInput, environmentInput: EnvironmentInput, lifeInput: LifeInput,
                       retryBudget: nat)
    returns (result: Option<SimulationResult>)
    ensures result.None? <==>
      populationSize == 0 && generationCount >= 2 && lifeInput.variablePopulationEnabled != Some(false)
    ensures result.Some? ==>
      var r := result.value;
      && r.seed == NormalizeSeed(seed, now)
      && r.evolutionConfig == NormalizeEvolutionConfig(evolutionInput)
      && r.poemStyleConfig == NormalizePoemStyleConfig(styleInput)
      && r.environmentConfig == NormalizeEnvironmentConfig(environmentInput)
      && r.lifeConfig == NormalizeLifeConfig(lifeInput)
      && |r.generations| == generationCount
      && Chained(r.generations, populationSize, r.lifeConfig)
      && r.records == FlatRecords(r.generations)
      && r.finalGeneration == (if generationCount == 0 then None else Some(r.generations[generationCount - 1]))
      && r.specimens == SpecimensOf(r.generations)
  {
    var rng := new Rng(seed, now);
    var config := NormalizeEvolutionConfig(evolutionInput);
    var styleConfig := NormalizePoemStyleConfig(styleInput);
    var envConfig := NormalizeEnvironmentConfig(environmentInput);
    var life := NormalizeLifeConfig(lifeInput);
    var nutrientPool := UniqueWords(nutrients);

    var run := RunGenerations(runId, populationSize, generationCount, nutrientPool, toxicWords, config, styleConfig,
                              envConfig, life, retryBudget, rng);
    if run.None? {
      assert populationSize == 0 && generationCount >= 2 && life.variablePopulationEnabled;
      return None;
    }
    assert !(populationSize == 0 && generationCount >= 2 && life.variablePopulationEnabled);
    var generations := run.value;
    assert |generations| == generationCount && Chained(generations, populationSize, life);
    var r := Assemble(rng.seed, generations, config, styleConfig, envConfig, life);
    result := Some(r);
  }

  /** The object `runSimulation` returns once the generations are done. */
  method Assemble(seed: Uint32, generations: seq<Evaluation>, config: EvolutionConfig, styleConfig: StyleConfig,
                  envConfig: EnvironmentConfig, life: LifeConfig)
    returns (r: SimulationResult)
    ensures r.seed == seed && r.generations == generations
    ensures r.evolutionConfig == config && r.poemStyleConfig == styleConfig
    ensures r.environmentConfig == envConfig && r.lifeConfig == life
    ensures r.records == FlatRecords(generations)
    ensures r.finalGeneration == (if generations == [] then None else Some(generations[|generations| - 1]))
    ensures r.specimens == SpecimensOf(generations)
  {
    var specimens := BuildSpecimens(generations);
    var finalGeneration := if |generations| > 0 then Some(generations[|generations| - 1]) else None;
    r := SimulationResult(seed, generations, FlatRecords(generations), finalGeneration, specimens,
                          config, styleConfig, envConfig, life);
  }

  /** The founders and the generation loop of `runSimulation`. */
  method RunGenerations(runId: string, populationSize: nat, generationCount: nat, nutrientPool: seq<string>,
                        toxicWords: seq<string>, config: EvolutionConfig, styleConfig: StyleConfig,
                        envConfig: EnvironmentConfig, life: LifeConfig, retryBudget: nat, rng: Rng)
    returns (run: Option<seq<Evaluation>>)
    requires rng.Valid() && config.Valid() && envConfig.Valid() && life.Valid()
    modifies rng
    ensures rng.Valid()
    ensures run.None? <==> populationSize == 0 && generationCount >= 2 && life.variablePopulationEnabled
    ensures run.Some? ==> |run.value| == generationCount && Chained(run.value, populationSize, life)
  {
    var individuals := Founders(populationSize, life, rng);
    var resourceState := CreateInitialResourceState(nutrientPool);
    var generations: seq<Evaluation> := [];
    var generation := 1;
    while generation <= generationCount
      invariant 1 <= generation <= generationCount + 1
      invariant rng.Valid()
      invariant |generations| == generation - 1
      invariant Chained(generations, populationSize, life) && Breedable(individuals)
      invariant generation <= generationCount ==>
        |individuals| == if generations == [] then populationSize else NextSize(generations[|generations| - 1], populationSize, life)
      invariant populationSize >= 1 ==> |individuals| >= 1
      invariant populationSize == 0 && generationCount >= 2 && generation > 1 ==> !life.variablePopulationEnabled
      decreases generationCount + 1 - generation
    {
      var ev;
      ev, resourceState := RunGeneration(runId, generation, individuals, toxicWords, styleConfig, nutrientPool,
                                         envConfig, life, resourceState, rng);
      ChainedSnoc(generations, populationSize, life, ev);
      generations := generations + [ev];
      if generation < generationCount {
        if populationSize >= 1 {
          NeverEmpty(ev, populationSize, life);
        } else {
          EmptyGenerationTarget(ev, life);
        }
        var next := NextIndividuals(ev, generation + 1, populationSize, config, life, retryBudget, rng);
        if next.None? {
          return None;
        }
        individuals := next.value;
      }
      generation := generation + 1;
    }
    run := Some(generations);
  }

  /** Every bred child has a normalised genome, so at least one line. */
  lemma BredLines(children: seq<Member>, parents: seq<(Record, Record)>, pool: seq<Record>, generation: nat, life: LifeConfig)
    requires Bred(children, parents, pool, generation, life)
    ensures Breedable(children)
  {
    forall i | 0 <= i < |children| ensures children[i].genome.lines >= 1 {
      assert ChildOf(children[i], i, generation, parents[i].0, parents[i].1, life);
    }
  }
}
