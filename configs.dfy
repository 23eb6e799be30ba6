/** The configuration records of the evolution orchestrator and their
    normalisation: every field the caller leaves out, or gives as a value
    that is not a finite number, takes its default; every other field is
    clamped into its documented range. A field is `None` when JavaScript
    would see `undefined`, `null` or a non-finite number; a switch is
    `Some(false)` only when the caller passed the literal `false`. */
module Configs {
  import opened Wrappers
  import opened Numeric
  import opened Text

  // ------------------------------------------------------- evolution config

  datatype EvolutionInput = EvolutionInput(
    eliteRatio: Option<real>,
    diversityRatio: Option<real>,
    minElite: Option<real>,
    minDiversity: Option<real>,
    mutationRate: Option<real>,
    mutationStrength: Option<real>)

  datatype EvolutionConfig = EvolutionConfig(
    eliteRatio: real,
    diversityRatio: real,
    minElite: int,
    minDiversity: int,
    mutationRate: real,
    mutationStrength: real)
  {
    /** The ranges `normalizeEvolutionConfig` guarantees. */
    predicate Valid() {
      && 0.0 <= eliteRatio <= 1.0 && 0.0 <= diversityRatio <= 1.0
      && 1 <= minElite <= 1000 && 0 <= minDiversity <= 1000
      && 0.0 <= mutationRate <= 1.0 && 0.0 <= mutationStrength <= 1.0
    }

    /** The config handed back in as caller input. */
    function AsInput(): EvolutionInput {
      EvolutionInput(Some(eliteRatio), Some(diversityRatio), Some(minElite as real),
        Some(minDiversity as real), Some(mutationRate), Some(mutationStrength))
    }
  }

  /** `DEFAULT_EVOLUTION_CONFIG`. */
  const DefaultEvolution := EvolutionConfig(0.2, 0.07, 2, 1, 0.12, 0.18)

  /** `normalizeEvolutionConfig(config)`. */
  function NormalizeEvolutionConfig(input: EvolutionInput): (c: EvolutionConfig)
    ensures c.Valid()
    ensures input.eliteRatio.None? ==> c.eliteRatio == DefaultEvolution.eliteRatio
    ensures input.diversityRatio.None? ==> c.diversityRatio == DefaultEvolution.diversityRatio
    ensures input.minElite.None? ==> c.minElite == DefaultEvolution.minElite
    ensures input.minDiversity.None? ==> c.minDiversity == DefaultEvolution.minDiversity
    ensures input.mutationRate.None? ==> c.mutationRate == DefaultEvolution.mutationRate
    ensures input.mutationStrength.None? ==> c.mutationStrength == DefaultEvolution.mutationStrength
  {
    EvolutionConfig(
      ClampNumber(input.eliteRatio, 0.0, 1.0, DefaultEvolution.eliteRatio),
      ClampNumber(input.diversityRatio, 0.0, 1.0, DefaultEvolution.diversityRatio),
      ClampInteger(input.minElite, 1, 1000, DefaultEvolution.minElite),
      ClampInteger(input.minDiversity, 0, 1000, DefaultEvolution.minDiversity),
      ClampNumber(input.mutationRate, 0.0, 1.0, DefaultEvolution.mutationRate),
      ClampNumber(input.mutationStrength, 0.0, 1.0, DefaultEvolution.mutationStrength))
  }

  /** `Math.round` leaves an integer alone. */
  lemma MathRoundOfInt(n: int)
    ensures MathRound(n as real) == n
  {
  }

  /** Normalisation is idempotent: a normalised config passed in again comes
      back unchanged. */
  lemma EvolutionConfigIdempotent(input: EvolutionInput)
    ensures NormalizeEvolutionConfig(NormalizeEvolutionConfig(input).AsInput()) == NormalizeEvolutionConfig(input)
  {
    var c := NormalizeEvolutionConfig(input);
    MathRoundOfInt(c.minElite);
    MathRoundOfInt(c.minDiversity);
  }

  // ------------------------------------------------------------ life config

  /** A caller's value after the merge `{...DEFAULT_LIFE_CONFIG, ...config}`:
      an absent key takes the default, while a key that is present but not a
      finite number (`null`, `NaN`, a string) stays non-finite. For every
      other life field the default lies inside its clamp bounds, so the two
      cases give the same value and `None` stands for both. */
  datatype Setting = Absent | NonFinite | Given(value: real)

  function Merged(s: Setting, default: real): (r: Option<real>)
    ensures s.Absent? ==> r == Some(default)
    ensures s.NonFinite? ==> r.None?
    ensures s.Given? ==> r == Some(s.value)
  {
    match s
    case Absent => Some(default)
    case NonFinite => None
    case Given(v) => Some(v)
  }

  datatype LifeInput = LifeInput(
    variablePopulationEnabled: Option<bool>,
    minPopulationRatio: Option<real>,
    maxPopulationRatio: Option<real>,
    initialEnergy: Option<real>,
    maxEnergy: Setting,
    minBirthEnergy: Option<real>,
    energyDeathThreshold: Option<real>,
    baseMetabolismCost: Option<real>,
    scoreToEnergyScale: Option<real>,
    seasonEnergyScale: Option<real>,
    energyInheritance: Option<real>,
    birthEnergyJitter: Option<real>)

  datatype LifeConfig = LifeConfig(
    variablePopulationEnabled: bool,
    minPopulationRatio: real,
    maxPopulationRatio: real,
    initialEnergy: real,
    maxEnergy: real,
    minBirthEnergy: real,
    energyDeathThreshold: real,
    baseMetabolismCost: real,
    scoreToEnergyScale: real,
    seasonEnergyScale: real,
    energyInheritance: real,
    birthEnergyJitter: real)
  {
    /** The ranges `normalizeLifeConfig` guarantees. The maximum energy is not
        always at least the initial energy: a maximum given as a non-finite
        value falls back to 150 whatever the initial energy is. */
    predicate Valid() {
      && 0.3 <= minPopulationRatio <= 1.2 && minPopulationRatio <= maxPopulationRatio <= 2.5
      && 20.0 <= initialEnergy <= 250.0 && 20.0 <= maxEnergy <= 320.0
      && 0.0 <= energyDeathThreshold <= minBirthEnergy <= maxEnergy
      && 0.0 <= baseMetabolismCost <= 80.0 && 0.0 <= scoreToEnergyScale <= 1.2
      && 0.0 <= seasonEnergyScale <= 30.0 && 0.0 <= energyInheritance <= 1.0
      && 0.0 <= birthEnergyJitter <= 30.0
    }
  }

  /** `DEFAULT_LIFE_CONFIG`. */
  const DefaultLife := LifeConfig(true, 0.55, 1.6, 100.0, 150.0, 28.0, 1.0, 16.0, 0.34, 12.0, 0.72, 6.0)

  /** `normalizeLifeConfig(config)`: the bounds of the later fields depend
      on the normalised earlier ones. */
  function NormalizeLifeConfig(input: LifeInput): (c: LifeConfig)
    ensures c.Valid()
    ensures c.variablePopulationEnabled <==> input.variablePopulationEnabled != Some(false)
    ensures !input.maxEnergy.NonFinite? ==> c.initialEnergy <= c.maxEnergy
    ensures input.maxEnergy.Absent? ==> c.maxEnergy == Max(DefaultLife.maxEnergy, c.initialEnergy)
    ensures input.maxEnergy.NonFinite? ==> c.maxEnergy == DefaultLife.maxEnergy
    ensures input.maxEnergy.Given? && c.initialEnergy <= input.maxEnergy.value <= 320.0 ==>
      c.maxEnergy == input.maxEnergy.value
    ensures input.minBirthEnergy.None? ==> c.minBirthEnergy == Min(DefaultLife.minBirthEnergy, c.maxEnergy)
    ensures input.energyDeathThreshold.None? ==>
      c.energyDeathThreshold == Min(DefaultLife.energyDeathThreshold, c.minBirthEnergy)
  {
    var minRatio := ClampNumber(input.minPopulationRatio, 0.3, 1.2, DefaultLife.minPopulationRatio);
    var maxRatio := ClampNumber(input.maxPopulationRatio, minRatio, 2.5, DefaultLife.maxPopulationRatio);
    var initial := ClampNumber(input.initialEnergy, 20.0, 250.0, DefaultLife.initialEnergy);
    var maxEnergy := ClampNumber(Merged(input.maxEnergy, DefaultLife.maxEnergy), initial, 320.0, DefaultLife.maxEnergy);
    var minBirth := ClampNumber(input.minBirthEnergy, 0.0, maxEnergy, Min(DefaultLife.minBirthEnergy, maxEnergy));
    var death := ClampNumber(input.energyDeathThreshold, 0.0, minBirth,
      Min(DefaultLife.energyDeathThreshold, minBirth));
    LifeConfig(
      input.variablePopulationEnabled != Some(false),
      minRatio, maxRatio, initial, maxEnergy, minBirth, death,
      ClampNumber(input.baseMetabolismCost, 0.0, 80.0, DefaultLife.baseMetabolismCost),
      ClampNumber(input.scoreToEnergyScale, 0.0, 1.2, DefaultLife.scoreToEnergyScale),
      ClampNumber(input.seasonEnergyScale, 0.0, 30.0, DefaultLife.seasonEnergyScale),
      ClampNumber(input.energyInheritance, 0.0, 1.0, DefaultLife.energyInheritance),
      ClampNumber(input.birthEnergyJitter, 0.0, 30.0, DefaultLife.birthEnergyJitter))
  }

  /** An absent maximum is the default 150 raised to the initial energy:
      with an initial energy of 200 and no maximum, the maximum is 200. */
  lemma AbsentMaxEnergyFollowsInitial()
    ensures var c := NormalizeLifeConfig(LifeInput(None, None, None, Some(200.0), Absent, None, None,
                                                   None, None, None, None, None));
      c.initialEnergy == 200.0 && c.maxEnergy == 200.0
  {
  }

  /** A maximum given as a non-finite value takes the fallback 150 without
      the clamp, so it can end below the initial energy. */
  lemma NonFiniteMaxEnergyBelowInitial()
    ensures var c := NormalizeLifeConfig(LifeInput(None, None, None, Some(200.0), NonFinite, None, None,
                                                   None, None, None, None, None));
      c.initialEnergy == 200.0 && c.maxEnergy == 150.0 < c.initialEnergy
  {
  }

  // ---------------------------------------------------------------- seasons

  /** A season as the caller gives it; "" stands for a missing or falsy
      `key` or `label`. */
  datatype SeasonInput = SeasonInput(key: string, labelText: string, focusRatio: Option<real>,
                                     metabolismMultiplier: Option<real>)

  datatype Season = Season(key: string, labelText: string, focusRatio: real, metabolismMultiplier: real)
  {
    predicate Valid() {
      0.3 <= focusRatio <= 1.0 && 0.7 <= metabolismMultiplier <= 1.3
    }
  }

  /** `DEFAULT_SEASONS`. */
  const DefaultSeasons: seq<Season> := [
    Season("spring", "春", 0.9, 1.06),
    Season("summer", "夏", 0.75, 1.02),
    Season("autumn", "秋", 0.65, 0.97),
    Season("winter", "冬", 0.55, 0.92)]

  lemma DefaultSeasonsValid()
    ensures forall i :: 0 <= i < |DefaultSeasons| ==> DefaultSeasons[i].Valid()
  {
  }

  /** `normalizeSeason(season, fallbackSeason)`: a missing number takes the
      fallback season's value as it stands, a given one is clamped. */
  function NormalizeSeason(s: SeasonInput, fallback: Season): (r: Season)
    ensures fallback.Valid() ==> r.Valid()
    ensures s.key != "" ==> r.key == Trim(s.key)
    ensures s.key == "" && fallback.key != "" ==> r.key == Trim(fallback.key)
    ensures s.labelText != "" ==> r.labelText == Trim(s.labelText)
    ensures s.labelText == "" && fallback.labelText == "" ==> r.labelText == Trim(r.key)
    ensures s.focusRatio.None? ==> r.focusRatio == fallback.focusRatio
    ensures s.focusRatio.Some? ==> 0.3 <= r.focusRatio <= 1.0
    ensures s.metabolismMultiplier.None? ==> r.metabolismMultiplier == fallback.metabolismMultiplier
    ensures s.metabolismMultiplier.Some? ==> 0.7 <= r.metabolismMultiplier <= 1.3
  {
    var key := Trim(if s.key != "" then s.key else if fallback.key != "" then fallback.key else "season");
    var labelText := Trim(if s.labelText != "" then s.labelText else if fallback.labelText != "" then fallback.labelText else key);
    Season(key, labelText,
      ClampNumber(s.focusRatio, 0.3, 1.0, fallback.focusRatio),
      ClampNumber(s.metabolismMultiplier, 0.7, 1.3, fallback.metabolismMultiplier))
  }

  // ------------------------------------------------------ resource dynamics

  datatype DynamicsInput = DynamicsInput(
    enabled: Option<bool>,
    depletionThreshold: Option<real>,
    depletionGain: Option<real>,
    recoveryRate: Option<real>,
    inactiveRecoveryBonus: Option<real>,
    depletionLevel: Option<real>,
    metabolismImpact: Option<real>)

  datatype ResourceDynamics = ResourceDynamics(
    enabled: bool,
    depletionThreshold: real,
    depletionGain: real,
    recoveryRate: real,
    inactiveRecoveryBonus: real,
    depletionLevel: real,
    metabolismImpact: real)
  {
    predicate Valid() {
      && 0.2 <= depletionThreshold <= 0.95 && 0.0 <= depletionGain <= 1.0
      && 0.0 <= recoveryRate <= 0.8 && 0.0 <= inactiveRecoveryBonus <= 0.4
      && 0.25 <= depletionLevel <= 1.0 && 0.0 <= metabolismImpact <= 0.5
    }
  }

  /** `DEFAULT_ENVIRONMENT_CONFIG.resourceDynamics`. */
  const DefaultDynamics := ResourceDynamics(true, 0.55, 0.42, 0.18, 0.12, 0.58, 0.22)

  /** `normalizeResourceDynamics(config)`. */
  function NormalizeResourceDynamics(input: DynamicsInput): (d: ResourceDynamics)
    ensures d.Valid()
    ensures d.enabled <==> input.enabled != Some(false)
    ensures input.depletionThreshold.None? ==> d.depletionThreshold == DefaultDynamics.depletionThreshold
    ensures input.depletionLevel.None? ==> d.depletionLevel == DefaultDynamics.depletionLevel
    ensures input.metabolismImpact.None? ==> d.metabolismImpact == DefaultDynamics.metabolismImpact
  {
    ResourceDynamics(
      input.enabled != Some(false),
      ClampNumber(input.depletionThreshold, 0.2, 0.95, DefaultDynamics.depletionThreshold),
      ClampNumber(input.depletionGain, 0.0, 1.0, DefaultDynamics.depletionGain),
      ClampNumber(input.recoveryRate, 0.0, 0.8, DefaultDynamics.recoveryRate),
      ClampNumber(input.inactiveRecoveryBonus, 0.0, 0.4, DefaultDynamics.inactiveRecoveryBonus),
      ClampNumber(input.depletionLevel, 0.25, 1.0, DefaultDynamics.depletionLevel),
      ClampNumber(input.metabolismImpact, 0.0, 0.5, DefaultDynamics.metabolismImpact))
  }

  // ------------------------------------------------------ environment config

  /** `seasons` is `None` when the caller's value is not an array. */
  datatype EnvironmentInput = EnvironmentInput(enabled: Option<bool>, seasons: Option<seq<SeasonInput>>,
                                               resourceDynamics: DynamicsInput)

  datatype EnvironmentConfig = EnvironmentConfig(enabled: bool, seasons: seq<Season>,
                                                 resourceDynamics: ResourceDynamics)
  {
    predicate Valid() {
      seasons != [] && (forall i :: 0 <= i < |seasons| ==> seasons[i].Valid()) && resourceDynamics.Valid()
    }
  }

  /** `DEFAULT_ENVIRONMENT_CONFIG.mode`, the one mode the engine has. */
  const EnvironmentMode := "seasonal-v1"

  /** Season i of a caller's list, normalised against default season
      `i % 4`. */
  function NormalizeSeasons(ss: seq<SeasonInput>): (r: seq<Season>)
    ensures |r| == |ss|
    ensures forall i :: 0 <= i < |r| ==>
      r[i] == NormalizeSeason(ss[i], DefaultSeasons[i % |DefaultSeasons|]) && r[i].Valid()
  {
    DefaultSeasonsValid();
    seq(|ss|, i requires 0 <= i < |ss| => NormalizeSeason(ss[i], DefaultSeasons[i % |DefaultSeasons|]))
  }

  /** `normalizeEnvironmentConfig(config)`: the environment is on unless
      switched off, and an absent or empty season list means the four
      default seasons. */
  function NormalizeEnvironmentConfig(input: EnvironmentInput): (c: EnvironmentConfig)
    ensures c.Valid()
    ensures c.enabled <==> input.enabled != Some(false)
    ensures input.seasons.Some? && input.seasons.value != [] ==>
      c.seasons == NormalizeSeasons(input.seasons.value)
    ensures input.seasons.None? || input.seasons.value == [] ==> c.seasons == DefaultSeasons
    ensures c.resourceDynamics == NormalizeResourceDynamics(input.resourceDynamics)
  {
    DefaultSeasonsValid();
    var seasons := if input.seasons.Some? && input.seasons.value != [] then NormalizeSeasons(input.seasons.value)
                   else DefaultSeasons;
    EnvironmentConfig(input.enabled != Some(false), seasons, NormalizeResourceDynamics(input.resourceDynamics))
  }
}
