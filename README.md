# Poem-organism evolution engine, modelled in Dafny

The system breeds a population of "poem organisms". Every individual carries a
genome of eight fields: line count, line length, assertiveness, afterglow,
concreteness, repetition, nutrient mix and immunity. In each generation:

- every individual writes a poem from a seasonal list of nutrient words;
- a diagnostic scores the poem (metabolism, structure, repetition), and a toxic word kills the writer;
- the score feeds an energy economy in which a starving individual also dies;
- the records are ranked by score;
- parents are chosen from the living by elite and diversity selection, and children are bred by crossover and mutation;
- usage of each nutrient raises its "stress", which changes which nutrients the next season offers.

Everything is driven by the Mulberry32 generator seeded with the run's seed.

The project models the five core files one module per concern:

| module | file | what it holds |
|---|---|---|
| `Random` (rng.dfy) | domain/rng.js | the generator as a class `Rng` whose `Next` overwrites the state, `normalizeSeed`, `int`, `pick` |
| `Genomes` (genome.dfy) | public/app/domain/genome.js | `normalizeGenome`, random genomes, crossover, mutation, the founders |
| `Poems` (poem.dfy) | domain/poem.js | the line builder, decoration, nutrient marking and injection, the ending, the text statistics |
| `Health` (health.dfy) | public/app/domain/health.js | the score tiers and reasons of `diagnosePoem` |
| `Configs`, `Environment`, `Generations`, `Breeding`, `Simulation` | public/app/domain/evolution.js | config normalisation; seasonal environment and resource stress; evaluation of a generation; parent selection, population size and breeding; the run driver |
| `Numeric`, `Text`, `Wrappers` | shared helpers | `toFixed(3)` rounding, clamps, averages; trimming, splitting, lowercasing and keys of words; `Option` |

## How the model is built

- **Random stream.** The RNG state is a 32-bit unsigned value, held as an integer in [0, 2^32).
  - One step adds 0x6d2b79f5 modulo 2^32.
  - The mixing rounds (`Math.imul`, xor-shifts) are computed exactly in `bv32`.
  - Every draw is the integer u < 2^32; the source's value is u / 2^32.
  - `Rng` has a ghost counter `draws`, and `Valid()` ties the state to `seed` and `draws`.
  - Every randomised method states which draws it consumed. Some state exactly which values they compute from them, using `Draw(seed, k)`, the k-th value of the stream.
- **Numbers.** Doubles are exact reals.
  - `toFixed(3)` is `Round3`: rounding half away from zero to the 0.001 grid, at most 0.0005 from its argument.
  - `Math.round` is `MathRound`. `Number.isFinite` tests become `Option`: a missing or non-finite field is `None`.
- **State.** State the source changes in place is threaded explicitly:
  - the RNG object (`modifies rng`);
  - the `reasons` array of the diagnostic (value in, value out);
  - the resource-stress map (`map<string, real>`);
  - the population and the list of generations in the run loop.

### Source behaviour kept as written

- The local `clamp` of public/app/domain/evolution.js (lines 508-513) returns the lower bound when the upper one is smaller (`Numeric.JsClamp`). So a large `minDiversity` can ask for more records than remain. Only `Math.min(count, length)` in `sampleWithoutReplacement` limits the picks (`Breeding.SampleTotal`).
- `estimateNextPopulation` floors the minimum at 4. A run that starts with 1 to 3 individuals therefore grows to 4 (`Breeding.EstimateBounds`).
- Capping `assertiveness + afterglow` at 1.2 happens before rounding, so the rounded sum can be 1.201. `Genomes.NormalizeOvershoot` exhibits an input.
- A missing `maxEnergy` is merged in as 150 and then clamped into [initialEnergy, 320], so it follows a larger `initialEnergy` (`Configs.AbsentMaxEnergyFollowsInitial`). A `maxEnergy` given as `null` or `NaN` skips the clamp and takes the raw fallback 150, so an `initialEnergy` of 200 then ends above the maximum (`Configs.NonFiniteMaxEnergyBelowInitial`).
- With an initial population of 0, variable population on and at least two generations, `breedNextPopulation` picks from an empty pool. The source then reads `.genome` of `undefined` and throws. The model returns `None` in exactly that case (`Simulation.RunSimulation`).

## Model

| member | source | states |
|---|---|---|
| Random.Rng.constructor | domain/rng.js:1-6 | the generator starts on the normalised seed with no value drawn, and its state matches that seed |
| Random.Rng.Next | domain/rng.js:34-40 | one call advances the state by exactly 0x6d2b79f5 modulo 2^32 and returns the stream's next value |
| Random.Rng.Chance | public/app/domain/genome.js:86 | `rng() < p` consumes one draw and is true exactly when that draw is below p; never for p <= 0, always for p >= 1 |
| Random.Rng.Int | domain/rng.js:7-9 | `int(min, max)` consumes exactly one draw and lands in [min, max] whenever min <= max |
| Random.Rng.Pick | domain/rng.js:10-15 | `pick` of an empty list yields nothing and draws nothing; otherwise it draws once and returns the element at `int(0, length-1)`, a member of the list |
| Random.StateAfterClosedForm | domain/rng.js:33-35 | after k calls the state is seed + k * 0x6d2b79f5 modulo 2^32 |
| Random.StateAfterShift | domain/rng.js:35 | stepping once and then k times is stepping k + 1 times |
| Random.DrawIsOutput | domain/rng.js:34-40 | the k-th value is the mixer applied to the state after k + 1 steps |
| Random.StatePeriod | domain/rng.js:33-35 | the state sequence repeats with period 2^32 |
| Random.StreamPeriod | domain/rng.js:34-40 | the output stream repeats with period 2^32 |
| Random.Unit | domain/rng.js:39 | every draw divided by 2^32 lies in [0, 1) |
| Random.FromDraw | domain/rng.js:8 | `floor(u * (max-min+1)) + min` lies in [min, max] when min <= max |
| Random.Draws | domain/rng.js:34-40 | n calls consume n draws and return exactly the next n values of the stream |
| Random.TwinStreams | domain/rng.js:1-6 | two generators made from the same seed input yield identical sequences |
| Random.ToUint32 | domain/rng.js:43-45 | `>>> 0` keeps a value already in [0, 2^32) and otherwise differs from it by a multiple of 2^32 |
| Random.DigitPrefix | domain/rng.js:24 | the longest prefix of decimal digits: a prefix, all digits, followed by a non-digit or the end |
| Random.ParseInt | domain/rng.js:24 | `parseInt(s, 10)` fails exactly when no digit follows the leading blanks and sign |
| Random.DigitsValueOfNatToString | public/app/domain/evolution.js:299 | the decimal digits written for n read back as n |
| Random.NatToStringInjective | public/app/domain/evolution.js:299 | distinct numbers are written with distinct digit strings |
| Random.ParseIntOfDigits | domain/rng.js:24 | a non-empty run of digits parses to its decimal value |
| Random.ParseIntOfNegatedDigits | domain/rng.js:24 | a minus sign before a non-empty run of digits parses to the negated value |
| Random.ParseIntOfNatToString | domain/rng.js:24 | `parseInt(String(n), 10)` is n |
| Random.NormalizeSeed | domain/rng.js:19-30 | an integer seed is taken modulo 2^32; a text seed is its `parseInt` value modulo 2^32, or the clock value when it has no digits; a missing seed falls back to the clock value |
| Random.TextSeedOfDigits | domain/rng.js:19-30 | the text `"n"` seeds the generator exactly as the integer n does |
| Genomes.ClampInt | public/app/domain/genome.js:133-138 | the result lies in [min, max], is min for a non-finite value, and is the rounded value when that is already in range |
| Genomes.ClampUnit | public/app/domain/genome.js:140-145 | the result lies in [0, 1], is 0 for a non-finite value, and keeps a value in range |
| Genomes.CapPair | public/app/domain/genome.js:56-61 | under the cap the pair is unchanged; over it, both shrink so that they sum to exactly 1.2 and keep their ratio |
| Genomes.RoundUnit | public/app/domain/genome.js:48-53 | a unit field ends on the 0.001 grid in [0, 1], is 0 when non-finite, and is kept when already on the grid |
| Genomes.GridRounds | public/app/domain/genome.js:140-149 | clamping and rounding leave a unit value on the grid unchanged |
| Genomes.CapRound | public/app/domain/genome.js:56-64 | the capped and rounded pair is on the grid, sums to at most 1.201, and is exactly the rounded (possibly capped) pair |
| Genomes.CappedSumBound | public/app/domain/genome.js:56-64 | after capping and rounding, the two fields stay in [0, 1] and sum to at most 1.2 + 0.001 |
| Genomes.NormalizeGenome | public/app/domain/genome.js:44-70 | lines in [4,16], lineLen in [8,24], the six unit fields on the grid in [0,1], the cap within rounding; non-finite fields fall back to the minimum or 0 |
| Genomes.NormalizeIdentity | public/app/domain/genome.js:44-70 | a genome already in range, on the grid and under the cap is left unchanged |
| Genomes.NormalizeOvershoot | public/app/domain/genome.js:56-64 | a concrete genome whose assertiveness and afterglow sum to 1.201 after normalisation |
| Genomes.CrossChild | public/app/domain/genome.js:73-76 | each child field is the left parent's when its draw is below 0.5, otherwise the right parent's |
| Genomes.CrossSelf | public/app/domain/genome.js:72-78 | crossing a normalised genome with itself gives it back whatever the draws |
| Genomes.CrossFields | public/app/domain/genome.js:73-76 | the loop consumes one draw per field, in field order, and builds the crossed child |
| Genomes.Crossover | public/app/domain/genome.js:72-78 | `crossoverGenomes` uses exactly 8 draws and returns the normalised field-wise choice |
| Genomes.RandomUnit | public/app/domain/genome.js:121-123 | a random unit value lies on the 0.001 grid in [0, 1] |
| Genomes.RandomSigned | public/app/domain/genome.js:129-131 | a signed perturbation lies in [-span, span] |
| Genomes.RandomGenome | public/app/domain/genome.js:29-42 | the random genome is normalised, and its integer fields and four unit fields are the values drawn for them |
| Genomes.CreateRandomGenome | public/app/domain/genome.js:29-42 | uses exactly 8 draws and returns the genome those draws determine |
| Genomes.MutateInt | public/app/domain/genome.js:86-92 | when the rate draw is below the rate, the value gains `randomInt(lo, hi)` of the next draw and two draws are used; otherwise it is unchanged after one draw; the pair is `MutatedInt` of the stream |
| Genomes.MutateReal | public/app/domain/genome.js:94-116 | when the rate draw is below the rate, the value gains `randomSigned(span)` of the next draw and two draws are used; otherwise it is unchanged after one draw; the pair is `MutatedReal` of the stream |
| Genomes.MutatedInt | public/app/domain/genome.js:86-92 | one or two draws; the value is unchanged or moves by a step in [lo, hi]; rate 0 leaves it unchanged after one draw |
| Genomes.MutatedReal | public/app/domain/genome.js:94-116 | one or two draws; the value moves by at most the span; rate 0 leaves it unchanged after one draw |
| Genomes.MutatedRaw | public/app/domain/genome.js:80-119 | 8 to 16 draws; integer steps in [-2,2] and [-3,3], unit steps within ±strength, ±0.8·strength for repetition and ±0.7·strength for immunity; rate 0 gives the genome back after exactly 8 draws |
| Genomes.Mutate | public/app/domain/genome.js:80-119 | the genome is `normalizeGenome` of the raw genome the draws determine (`MutatedRaw`), and the draws used are the ones `MutatedRaw` counts |
| Genomes.Founder | public/app/domain/genome.js:22-26 | founder i has id `g1-i{i+1}`, no parents and a normalised genome |
| Genomes.FoundersExtend | public/app/domain/genome.js:21-27 | appending the next founder keeps the population the one the stream determines |
| Genomes.AddFounder | public/app/domain/genome.js:22-26 | one founder costs 8 draws and is appended to the list |
| Genomes.CreateInitialPopulation | public/app/domain/genome.js:21-27 | n founders numbered `g1-i1`..`g1-in` with empty parent lists, each from its own 8 draws |
| Genomes.IndividualIdLayout | public/app/domain/evolution.js:299 | an id is `g`, the generation's digits, `-i` and the index's digits |
| Genomes.IndividualIdInjective | public/app/domain/evolution.js:299 | two ids `g{n}-i{k}` are equal only for the same generation and index |
| Poems.NormalizePoemStyleConfig | domain/poem.js:62-82 | both rates lie in [0, 1]; missing rates fall back to 0.1 and 0.03; rates in range are kept |
| Poems.PickWord | domain/poem.js:264-270 | an empty list gives "" without a draw; otherwise one draw picks an element of the list |
| Poems.MaxTokens | domain/poem.js:160 | the token limit is the larger of 3 and ceil(lineLen/3) |
| Poems.NextToken | domain/poem.js:163-175 | each token comes from the pool, the nutrient list, the previous line's last token, or the line so far |
| Poems.BuildLineTokens | domain/poem.js:158-183 | a line has between 1 and max(3, ceil(lineLen/3)) tokens, each added while the joined length was below lineLen, and adding stops once it reaches lineLen or the limit |
| Poems.PrefixesExtend | domain/poem.js:162 | a token added while the line is short keeps every prefix below lineLen |
| Poems.InterleavedKeeps | domain/poem.js:218-224 | interleaving keeps the tokens as an in-order subsequence, at most doubles the length and adds only particles |
| Poems.InterleavedSelf | domain/poem.js:214-216 | a line with no particles inserted is unchanged |
| Poems.WithParticlesKeeps | domain/poem.js:213-227 | the decorated line keeps its tokens in order with the first still first, and inserts only particles |
| Poems.InsertParticles | domain/poem.js:213-227 | the output is the input with particles inserted only between tokens; a line of at most one token, or rate 0, is unchanged and draws nothing |
| Poems.DecorateLineTokens | domain/poem.js:185-211 | a conjunction is added only when allowed and not on line 0, and then it leads the line; the rest is the particle-decorated line |
| Poems.LookupNutrient | domain/poem.js:91 | the key lookup returns a nutrient with that key, or nothing exactly when no nutrient has it |
| Poems.SetAdd | domain/poem.js:122 | adding to the used set keeps it duplicate-free and adds exactly the new word |
| Poems.MatchesOf | domain/poem.js:119-124 | one lookup per token of the line, in order |
| Poems.MarkContents | domain/poem.js:119-124 | the used set grows by exactly the matched nutrients and stays duplicate-free |
| Poems.MarkNutrients | domain/poem.js:119-124 | the loop over a line's tokens adds every matched nutrient to the used set |
| Poems.MarkedNutrients | domain/poem.js:119-124 | after a line, the used set holds exactly the old words plus the nutrients its tokens matched, all of them nutrients |
| Poems.MatchedInLine | domain/poem.js:119-124 | a nutrient is among the matches exactly when some token of the line matched it |
| Poems.MarkKeepsUsed | domain/poem.js:119-124 | a duplicate-free set of nutrients stays one |
| Poems.ComposeLine | domain/poem.js:101-118 | the line is its decorated tokens joined by spaces; 1 to `MaxTokens` base tokens from the pools, the nutrients or the previous token; a conjunction only where allowed and never on line 0, and then it leads the line; the used set gains exactly the nutrients its tokens match |
| Poems.ComposeLines | domain/poem.js:95-127 | exactly `genome.lines` lines, each the join of its decorated tokens; a conjunction leads at most one line, never line 0; the used set is the one the tokens give (`UsedBy`) |
| Poems.ComposeStep | domain/poem.js:95-127 | one pass of the line loop keeps every line's parts, the conjunction positions and the used set the tokens give |
| Poems.UsedByContents | domain/poem.js:119-124 | the used set holds, once each, exactly the nutrients some token of some line matches |
| Poems.Splice | domain/poem.js:279 | `splice(index, 0, token)` puts the token at the index and shifts the rest right |
| Poems.InjectToken | domain/poem.js:276-281 | a line with no segments becomes the token without a draw; otherwise one draw picks a position in [0, segments] and the token is spliced in there |
| Poems.Injected | domain/poem.js:276-281 | a line with no segments becomes the trimmed token |
| Poems.InjectNutrient | domain/poem.js:129-134 | the first draw picks the nutrient, the second the line, and only that line changes: it receives the nutrient by `injectToken` |
| Poems.ForceNutrient | domain/poem.js:129-134 | the lines, used set and draws are those `Forced` gives from the stream |
| Poems.ForcedFacts | domain/poem.js:129-134 | at most one line changes; with nutrients the used set ends non-empty; a forced used set is the one nutrient picked, after 2 or 3 draws; when there are no nutrients or something was already used, nothing changes and nothing is drawn |
| Poems.UsedNutrientsFacts | domain/poem.js:95-134 | the used nutrients are distinct words of the list, non-empty when the list is, and, unless one was forced, exactly the nutrients some token matched |
| Poems.EndingPool | domain/poem.js:137-140 | the endings come from the assertive list exactly when assertiveness >= afterglow |
| Poems.EndingPoolsDisjoint | domain/poem.js:31-51 | no ending is both assertive and afterglow |
| Poems.AppendEnding | domain/poem.js:136-144 | only the last line changes: it gains an ending from the pool the genome selects |
| Poems.GeneratePoem | domain/poem.js:84-156 | the text is the composed lines, forced and then given an ending on the last line only; each line is the join of its decorated tokens; a conjunction leads at most one line, never line 0; the used nutrients are those `Forced` gives from the tokens' matches, distinct, from the list and non-empty when the list is; the statistics are those of the text |
| Poems.RunAt | domain/poem.js:302-308 | the run ending at token i is between 1 and i + 1 long |
| Poems.LongestBefore | domain/poem.js:298-312 | the longest run among the first n tokens is 0 exactly when n is 0, and at most n |
| Poems.RunAtIsBlock | domain/poem.js:302-308 | the run ending at i is a block of equal tokens |
| Poems.BlockWithinRun | domain/poem.js:302-308 | every block of equal tokens ending at i is no longer than the run there |
| Poems.LongestBeforeBounds | domain/poem.js:298-312 | the running maximum bounds every run seen |
| Poems.LongestBeforeAttained | domain/poem.js:298-312 | the running maximum is the length of some run |
| Poems.LongestRunIsLongestBlock | domain/poem.js:298-312 | `countLongestRepeat` is the length of the longest block of equal adjacent tokens |
| Poems.CountLongestRepeat | domain/poem.js:298-312 | the loop returns the longest run: 0 for no tokens, otherwise between 1 and the token count |
| Poems.Lengths | domain/poem.js:231 | one length per line |
| Poems.MaxLength | domain/poem.js:243 | the longest line's length, attained by some line, 0 for none |
| Poems.KeysOf | domain/poem.js:233 | one key per token |
| Poems.UniqueRatio | domain/poem.js:234-237 | the unique-token ratio is 1 for no tokens and otherwise lies in [0, 1] |
| Poems.PoemStatsOf | domain/poem.js:229-248 | line count of non-empty lines, character count without newlines, longest repeat 0 or in [1, tokenCount], ratio 1 with no tokens |
| Poems.BuildPoemStats | domain/poem.js:229-248 | the statistics are those of the text |
| Text.TrimOfTrimmed | domain/poem.js:252 | trimming a word with no outer blanks leaves it unchanged |
| Text.Join | domain/poem.js:261 | joining no pieces gives "", one piece gives itself |
| Text.Split | domain/poem.js:230 | splitting yields at least one piece and no piece contains the separator |
| Text.Words | domain/poem.js:232 | the tokens are non-empty and contain no whitespace |
| Text.NonEmpty | domain/poem.js:253 | `filter(Boolean)` keeps exactly the non-empty strings |
| Text.DropChar | domain/poem.js:241 | removing newlines removes every one of them and nothing else |
| Text.ContainsAt | public/app/domain/health.js:157 | a word found at some offset is contained |
| Text.Lower | public/app/domain/health.js:153 | lowercasing works character by character and keeps the length |
| Text.Dedupe | domain/poem.js:257 | the set keeps each distinct word once and nothing else |
| Text.TrimAll | domain/poem.js:252 | one trimmed word per input word |
| Text.NormalizeWords | domain/poem.js:250-254 | the trimmed, non-empty words; every non-blank word appears trimmed |
| Text.UniqueWords | domain/poem.js:256-258 | the distinct trimmed non-empty words |
| Text.UniqueWordsKeeps | domain/poem.js:256-258 | a word with no outer blanks survives deduplication |
| Text.NatToString | public/app/domain/evolution.js:299 | a non-empty string of decimal digits (read back as n by `Random.DigitsValueOfNatToString`) |
| Health.Multiplier | public/app/domain/health.js:87-89 | the environment's multiplier, or 1 without one |
| Health.Coverage | public/app/domain/health.js:74-75 | coverage is non-negative, and with at most one expected nutrient it is the number used |
| Health.BaseTier | public/app/domain/health.js:76-85 | 38 iff coverage >= 0.75 or at least 3 used; 24 iff below 0.4 and fewer than 2; otherwise 32 |
| Health.BaseTierMonotone | public/app/domain/health.js:76-85 | using more nutrients never lowers the tier |
| Health.TierScore | public/app/domain/health.js:97 | the scaled tier is clamped into [0, 45] |
| Health.TierScoreMonotone | public/app/domain/health.js:97 | a higher tier never scores less |
| Health.MetabolismScore | public/app/domain/health.js:63-98 | in [0, 45]; 0 when no nutrient was used |
| Health.MetabolismReasons | public/app/domain/health.js:69-95 | "栄養不足" alone when nothing was used; "栄養偏り" iff tier 24; tailwind iff multiplier >= 1.06, headwind iff <= 0.94 |
| Health.MetabolismNeutral | public/app/domain/health.js:87-97 | with multiplier 1 the score is the bare tier and only an imbalance is reported |
| Health.MetabolismMonotone | public/app/domain/health.js:74-97 | using more nutrients never lowers the metabolism score |
| Health.EvaluateMetabolism | public/app/domain/health.js:63-98 | the method returns the metabolism score and appends its reasons to the shared list |
| Health.StructureScore | public/app/domain/health.js:100-131 | a sum of a subset of {12, 8, 14, 8}, 42 exactly when every check passes, at most 34 with an over-long line |
| Health.StructureReasons | public/app/domain/health.js:103-128 | "構造崩れ", "行長の逸脱" and "長すぎる行" each appear exactly when their check fails |
| Health.StructureScoreFromReasons | public/app/domain/health.js:100-131 | each reason withholds exactly its bonus from 42; the near-genome bonus has no reason |
| Health.EvaluateStructure | public/app/domain/health.js:100-131 | the accumulating method returns the structure score and appends its reasons |
| Health.RepetitionPenalty | public/app/domain/health.js:133-150 | in {0, 10, 12, 22, 25, 35}; 25 below ratio 0.32, else 12 below 0.45; +10 iff a run of 4 or more |
| Health.RepetitionReasons | public/app/domain/health.js:136-147 | "反復発作", "反復過多" and "同語連打" appear exactly under their conditions |
| Health.RepetitionPenaltyTagged | public/app/domain/health.js:133-150 | a penalty is charged exactly when a repetition reason is given |
| Health.EvaluateRepetition | public/app/domain/health.js:133-150 | the accumulating method returns the penalty and appends its reasons |
| Health.HitsAmong | public/app/domain/health.js:157 | the hits are exactly the words found in the poem, in list order, each as many times as it is listed |
| Health.FindToxicHits | public/app/domain/health.js:152-158 | the hits are the trimmed non-empty toxic words the poem contains, case-insensitively, in list order and with their multiplicity |
| Health.RepeatedToxicWord | public/app/domain/health.js:152-158 | a toxic word listed twice is two hits |
| Health.ToxicIff | public/app/domain/health.js:20-21 | there is a hit iff some trimmed toxic word occurs in the poem |
| Health.PushedReasons | public/app/domain/health.js:12-30 | the pushed reasons never include "安定", and a poem without nutrients always has one |
| Health.AttenuatedPenalty | public/app/domain/health.js:22-23 | no hit, no penalty |
| Health.ToxinPenalty | public/app/domain/health.js:22-25 | a hit costs at least 80; no hit costs nothing |
| Health.ChargeToxins | public/app/domain/health.js:20-28 | a death appends "毒語を検出" and then "死亡判定" |
| Health.FinalScore | public/app/domain/health.js:32-34 | the score lies in [0, 100], is 0 when dead, and rounds an in-range raw score |
| Health.RunChecks | public/app/domain/health.js:9-30 | the breakdown holds the four component scores and the reasons are those the checks push, in order |
| Health.DiagnosisGuarantees | public/app/domain/health.js:1-61 | dead iff a toxic hit; score in [0, 100] and 0 when dead; penalty >= 80 when dead; reasons never empty, with "安定" exactly when alone |
| Health.DiagnosePoem | public/app/domain/health.js:1-61 | the method computes the diagnosis the checks define |
| Numeric.Round3 | public/app/domain/evolution.js:916-918 | rounding to thousandths moves a value by at most 0.0005 and keeps it non-negative |
| Numeric.Round3IsOnGrid | public/app/domain/evolution.js:916-918 | a rounded value is on the 0.001 grid |
| Numeric.Round3Mono | public/app/domain/evolution.js:916-918 | rounding is monotone |
| Numeric.Round3OnGrid | public/app/domain/evolution.js:916-918 | a value on the grid rounds to itself |
| Numeric.Round3Idempotent | public/app/domain/evolution.js:916-918 | rounding twice is rounding once |
| Numeric.Round3Neg | public/app/domain/evolution.js:916-918 | rounding is symmetric about 0 |
| Numeric.Round3Within | public/app/domain/evolution.js:916-918 | a value between two grid points rounds between them |
| Numeric.ZeroRounds | public/app/domain/evolution.js:916-918 | 0 rounds to 0 |
| Numeric.MathRound | public/app/domain/evolution.js:931 | `Math.round` is within half of its argument, rounding halves up |
| Numeric.Clamp | public/app/domain/health.js:160-162 | the result lies in [lo, hi] when lo <= hi, keeps a value in range, and never exceeds hi |
| Numeric.ClampMono | public/app/domain/health.js:160-162 | clamping is monotone |
| Numeric.JsClamp | public/app/domain/evolution.js:508-513 | the lower bound wins when the bounds cross; otherwise the result lies in range and keeps a value in range |
| Numeric.ClampNumber | public/app/domain/evolution.js:920-925 | a missing value gives the fallback; a present one is clamped into range and kept when in it |
| Numeric.ClampInteger | public/app/domain/evolution.js:927-932 | a missing value gives the fallback; a present one is rounded and clamped |
| Numeric.Average | public/app/domain/evolution.js:515-520 | the average of nothing is 0 |
| Numeric.SumBounds | public/app/domain/evolution.js:519 | a sum of values in [lo, hi] lies in [n·lo, n·hi] |
| Numeric.AverageBounds | public/app/domain/evolution.js:515-520 | the average of values in [lo, hi] lies in [lo, hi] |
| Configs.NormalizeEvolutionConfig | public/app/domain/evolution.js:522-556 | ratios and rates in [0, 1], minElite in [1, 1000], minDiversity in [0, 1000], missing fields at their defaults |
| Configs.EvolutionConfigIdempotent | public/app/domain/evolution.js:522-556 | normalising a normalised config changes nothing |
| Configs.NormalizeLifeConfig | public/app/domain/evolution.js:558-642 | every field in its documented range; variable population unless explicitly false; a missing maxEnergy is 150 raised to initialEnergy, a non-finite one 150, a given one in range kept; the derived defaults of minBirthEnergy and energyDeathThreshold |
| Configs.AbsentMaxEnergyFollowsInitial | public/app/domain/evolution.js:558-589 | with initialEnergy 200 and no maxEnergy, the maximum is 200 |
| Configs.NonFiniteMaxEnergyBelowInitial | public/app/domain/evolution.js:584-589 | with initialEnergy 200 and a non-finite maxEnergy, the maximum is 150, below the initial energy |
| Configs.DefaultSeasonsValid | public/app/domain/evolution.js:23-48 | the four default seasons satisfy the season ranges |
| Configs.NormalizeSeason | public/app/domain/evolution.js:668-687 | key and label trimmed with their fallbacks; focus ratio in [0.3, 1] and multiplier in [0.7, 1.3] |
| Configs.NormalizeResourceDynamics | public/app/domain/evolution.js:689-735 | every rate in its range, enabled unless explicitly false, missing fields at their defaults |
| Configs.NormalizeSeasons | public/app/domain/evolution.js:650-658 | season i is normalised against default season i mod 4 |
| Configs.NormalizeEnvironmentConfig | public/app/domain/evolution.js:644-666 | enabled unless explicitly false; the given seasons normalised, or the defaults when none are given |
| Environment.StressOf | public/app/domain/evolution.js:776 | a nutrient's stress lies in [0, 1], is its stored value when that is in range, and 0 when it has none |
| Environment.RoundedStress | public/app/domain/evolution.js:887 | a rounded level lies on the grid in [0, 1] |
| Environment.CreateInitialResourceState | public/app/domain/evolution.js:881-883 | every nutrient and nothing else, at stress 0 |
| Environment.BuildResourceLevels | public/app/domain/evolution.js:885-889 | one level per nutrient on the grid in [0, 1], keeping levels already there |
| Environment.BuildResourceLevelsIdempotent | public/app/domain/evolution.js:885-889 | rebuilding the levels changes nothing |
| Environment.JsRem | public/app/domain/evolution.js:838 | the truncating `%` stays strictly between −n and n |
| Environment.OffsetIsMod | public/app/domain/evolution.js:838 | `((step % n) + n) % n` is the true residue |
| Environment.RotateList | public/app/domain/evolution.js:834-843 | the rotation has the same elements, and element i is element (i + step) mod n |
| Environment.RotateAt | public/app/domain/evolution.js:838-842 | the two slices concatenated are the rotation by the offset |
| Environment.ActiveCount | public/app/domain/evolution.js:769-773 | between 1 and n nutrients are active |
| Environment.RankStress | public/app/domain/evolution.js:775-777 | the ranking stress lies in [0, 1] and is 0 without dynamics |
| Environment.RankEntry | public/app/domain/evolution.js:774-786 | entry i holds rotated word i, index i, and a score in [0, 1] |
| Environment.RankEntries | public/app/domain/evolution.js:774-786 | one entry per rotated word |
| Environment.Rank | public/app/domain/evolution.js:787-793 | the number of entries that sort ahead of one, by score descending then index |
| Environment.PickedWords | public/app/domain/evolution.js:787-796 | a word is selected exactly when its entry has fewer than k entries ranked ahead of it |
| Environment.PickedInOrder | public/app/domain/evolution.js:795-796 | the selected words keep rotated order |
| Environment.Without | public/app/domain/evolution.js:797-798 | the dormant words are the rotated words that are not active |
| Environment.WithoutInOrder | public/app/domain/evolution.js:798 | the dormant words keep rotated order |
| Environment.DepletedWords | public/app/domain/evolution.js:799-801 | the depleted words are exactly those whose rounded stress reaches the depletion level |
| Environment.Stresses | public/app/domain/evolution.js:806-808 | one stress per active word |
| Environment.ResourcePressure | public/app/domain/evolution.js:802-810 | the mean stress of the active words lies in [0, 1] and is 0 with none |
| Environment.FactorBounds | public/app/domain/evolution.js:811-813 | the pressure factor lies in [0, 1]; an unstressed factor is 1 |
| Environment.MultiplierRange | public/app/domain/evolution.js:814-816 | the metabolism multiplier lies in [0.7, 1.3] |
| Environment.ScaledMultiplierBelow | public/app/domain/evolution.js:811-816 | pressure can only lower a season's multiplier |
| Environment.PressureLowersMultiplier | public/app/domain/evolution.js:811-816 | a season's multiplier under pressure never exceeds its own (rounded) multiplier |
| Environment.Rotated | public/app/domain/evolution.js:765-768 | the generation's rotation is a permutation of the nutrients |
| Environment.RankedNutrients | public/app/domain/evolution.js:774-786 | one ranked entry per nutrient |
| Environment.ResolveGenerationEnvironment | public/app/domain/evolution.js:737-832 | the static fallback when disabled or empty; otherwise season (g−1) mod |seasons|, the selected active words, dormant and depleted words, levels, pressure, and a multiplier in [0.7, 1.3] |
| Environment.ActiveDormantPartition | public/app/domain/evolution.js:787-798 | active and dormant words partition the rotated list and both keep rotated order |
| Environment.DepletedIff | public/app/domain/evolution.js:799-801 | a nutrient is depleted iff its rounded stress reaches the depletion level |
| Environment.NoDepletionWithoutDynamics | public/app/domain/evolution.js:775-801 | without dynamics no nutrient is depleted |
| Environment.NothingDepleted | public/app/domain/evolution.js:799-801 | with every stress below the level, nothing is depleted |
| Environment.CountOf | public/app/domain/evolution.js:897-901 | a word occurs at most as often as the list is long |
| Environment.CountOfAbsent | public/app/domain/evolution.js:897-901 | an absent word counts 0 |
| Environment.CountOfDistinct | public/app/domain/evolution.js:897-901 | a duplicate-free list counts a word at most once |
| Environment.OccurrencesBound | public/app/domain/evolution.js:891-904 | a nutrient is counted at most once per record |
| Environment.CountUses | public/app/domain/evolution.js:897-901 | the inner loop raises each known nutrient's count by its occurrences and adds no key |
| Environment.CountNutrientUsage | public/app/domain/evolution.js:891-904 | one count per nutrient: the number of its uses over all records |
| Environment.UsageShare | public/app/domain/evolution.js:863 | a count divided by the population lies in [0, 1] when the count is at most the population |
| Environment.UsageRatio | public/app/domain/evolution.js:856-863 | the usage ratio is non-negative |
| Environment.UsageRatioBound | public/app/domain/evolution.js:856-863 | when each record lists a nutrient at most once, its usage ratio is at most 1 |
| Environment.UsagePressure | public/app/domain/evolution.js:864-867 | pressure is 0 up to the threshold and at most 1 for a ratio at most 1 |
| Environment.DecayRate | public/app/domain/evolution.js:868-873 | the recovery rate, including the bonus of an inactive nutrient, lies in [0, 0.95] |
| Environment.NextStress | public/app/domain/evolution.js:874-875 | the next stress lies in [0, 1] |
| Environment.NextStressIs | public/app/domain/evolution.js:874-875 | the next stress is the decayed stress plus gained pressure, clamped and rounded |
| Environment.RecoveryWithoutPressure | public/app/domain/evolution.js:874-875 | without pressure stress never rises |
| Environment.RecoveryBelowThreshold | public/app/domain/evolution.js:864-875 | a nutrient used at most at the threshold does not gain stress |
| Environment.StressRisesWithPressure | public/app/domain/evolution.js:874-875 | more pressure never lowers the next stress |
| Environment.DecayedBelow | public/app/domain/evolution.js:874-875 | decay alone keeps stress at or below the old value |
| Environment.RaisedAbove | public/app/domain/evolution.js:874-875 | the clamped and rounded update is monotone in the pressure |
| Environment.EvolveResourceState | public/app/domain/evolution.js:845-879 | one entry per nutrient with stress in [0, 1], computed by the update rule; without dynamics, the clamped previous levels |
| Generations.InitializeIndividuals | public/app/domain/evolution.js:374-380 | founders keep id, parents and genome, at age 0 with the rounded initial energy |
| Generations.EnergyDelta | public/app/domain/evolution.js:382-395 | a dead individual loses the maximum energy |
| Generations.DeltaRisesWithScore | public/app/domain/evolution.js:387-394 | a higher score never lowers the energy delta |
| Generations.DeltaRisesWithMultiplier | public/app/domain/evolution.js:388-394 | a kinder season never lowers the energy delta |
| Generations.EnergyDeltaMonotone | public/app/domain/evolution.js:382-395 | the living delta rises with both score and multiplier |
| Generations.EnergyBefore | public/app/domain/evolution.js:196-201 | the starting energy lies in [0, maxEnergy] |
| Generations.LivingAfter | public/app/domain/evolution.js:207-214 | the settled energy lies in [0, maxEnergy] |
| Generations.SettleGuarantees | public/app/domain/evolution.js:196-246 | the record keeps identity and inputs; energies in [0, maxEnergy]; the dead score 0, end at 0 and lose exactly what they had; the starving die with "エネルギー枯渇" after the diagnostic reasons |
| Generations.Fed | public/app/domain/evolution.js:174-177 | the nutrients offered are the active ones, or all when none is active |
| Generations.EvaluateIndividual | public/app/domain/evolution.js:179-247 | the record is built from the individual's poem and its diagnosis, and its energy account balances |
| Generations.Insert | public/app/domain/evolution.js:249 | insertion into a descending list keeps it descending and adds one |
| Generations.InsertPermutes | public/app/domain/evolution.js:249 | insertion adds exactly the new record |
| Generations.RankByScore | public/app/domain/evolution.js:249 | the ranking is sorted by score, descending |
| Generations.RankPermutes | public/app/domain/evolution.js:249 | the ranking is a permutation of the records |
| Generations.DescendingPairs | public/app/domain/evolution.js:249 | in a ranking every earlier record scores at least as much as every later one |
| Generations.RankedFirstIsBest | public/app/domain/evolution.js:249-250 | the first ranked record has the best score |
| Generations.Living | public/app/domain/evolution.js:251 | the living are exactly the records not dead |
| Generations.RankedBalanced | public/app/domain/evolution.js:249 | ranking keeps every record's energy account balanced |
| Generations.EvaluateAll | public/app/domain/evolution.js:179-247 | record j is built from individual j's poem and diagnosis, and every account balances |
| Generations.EvaluateGeneration | public/app/domain/evolution.js:164-261 | the records are a descending permutation of the evaluations; winners are the first min(3, n); living + dead = n |
| Generations.SpecimenOf | public/app/domain/evolution.js:360-368 | the specimen of winner k has rank k + 1 and the winner's id and score |
| Generations.SpecimensCount | public/app/domain/evolution.js:356-372 | one specimen per winner, ranks from 1 |
| Generations.BuildSpecimens | public/app/domain/evolution.js:356-372 | the loop collects the specimens of every generation's winners in order |
| Breeding.RemoveAt | public/app/domain/evolution.js:474 | `splice(index, 1)` removes one element |
| Breeding.RemoveAtMultiset | public/app/domain/evolution.js:472-474 | the removed element and the rest make up the bucket |
| Breeding.Sampled | public/app/domain/evolution.js:471-475 | k picks move k elements from the bucket to the picks |
| Breeding.SampledPartitions | public/app/domain/evolution.js:467-477 | picks and bucket together keep every element |
| Breeding.SampleWithinList | public/app/domain/evolution.js:462-478 | the sample is a sub-multiset of the list, all of it when every element is taken |
| Breeding.SampleTotal | public/app/domain/evolution.js:463-469 | the pick count is min(count, length), 0 for a non-positive count or an empty list |
| Breeding.SampleWithoutReplacement | public/app/domain/evolution.js:462-478 | the loop draws once per pick and returns the sample the draws determine |
| Breeding.DedupeFacts | public/app/domain/evolution.js:480-493 | the result has distinct ids, comes from the input, keeps the first record of each id and every id |
| Breeding.DedupeBasics | public/app/domain/evolution.js:480-493 | the result has distinct ids, comes from the input, keeps every id and is no longer than the input |
| Breeding.DedupeKeepsFirstAt | public/app/domain/evolution.js:480-493 | the first record with a given id is kept |
| Breeding.DedupeOfDistinct | public/app/domain/evolution.js:480-493 | a list with distinct ids is unchanged |
| Breeding.DedupePrefix | public/app/domain/evolution.js:480-493 | deduplicating a longer list extends the result for its prefix |
| Breeding.DedupeByIndividualId | public/app/domain/evolution.js:480-493 | the loop with its seen set computes the deduplication |
| Breeding.ParentSource | public/app/domain/evolution.js:309-310 | the living records, or all when none lives; empty exactly when there are no records |
| Breeding.ParentSourceIdempotent | public/app/domain/evolution.js:271-273 | the filter that `selectParents` repeats on its input changes nothing |
| Breeding.QuotaBounds | public/app/domain/evolution.js:316-329 | eliteCount lies in [min(minElite, n), n] and is at least 1; diversity is 0 when the elite take all, otherwise at least minDiversity |
| Breeding.Candidates | public/app/domain/evolution.js:332-333 | the diversity candidates are never empty |
| Breeding.DiversityDraws | public/app/domain/evolution.js:325-338 | the diversity sample takes at most what the elite leave |
| Breeding.Retry | public/app/domain/evolution.js:346-351 | the retry loop uses at most its budget of draws |
| Breeding.RetryFacts | public/app/domain/evolution.js:346-351 | retries keep ids distinct and records from the source, only extend the pool, and end with min(2, n) records when they stop before the budget |
| Breeding.RetriedFacts | public/app/domain/evolution.js:346-351 | retries from a pool with distinct ids that starts with the elite keep the pool's guarantees |
| Breeding.AddNewId | public/app/domain/evolution.js:348-349 | adding a record with a new id keeps ids distinct |
| Breeding.InitialPoolFacts | public/app/domain/evolution.js:331-340 | the first pool has distinct ids, 1 to n source records, and starts with the deduplicated elite |
| Breeding.SelectFromFacts | public/app/domain/evolution.js:308-354 | the parent pool has distinct ids, 1 to n source records, starts with the deduplicated elite, and has min(2, n) records unless every retry was spent |
| Breeding.InitialPoolGuarantees | public/app/domain/evolution.js:331-343 | a first pool of two or more records, or one from a single-record source, meets the pool guarantees |
| Breeding.RetriedPoolGuarantees | public/app/domain/evolution.js:344-353 | a smaller first pool meets them after the retries |
| Breeding.SelectFromKeepsElite | public/app/domain/evolution.js:331-343 | with distinct source ids the pool starts with exactly the top eliteCount records |
| Breeding.CandidatesWithin | public/app/domain/evolution.js:332-333 | the diversity candidates come from the source |
| Breeding.SelectParents | public/app/domain/evolution.js:308-354 | the method computes the selection its specification defines, drawing as it does |
| Breeding.PoolFrom | public/app/domain/evolution.js:316-353 | the selection from a non-empty source is the first pool followed by the retries |
| Breeding.InitialParents | public/app/domain/evolution.js:316-340 | the elite plus the diversity sample, deduplicated, using the sample's draws |
| Breeding.RetryParents | public/app/domain/evolution.js:346-351 | the while loop computes the retries its specification defines |
| Breeding.PopulationBounds | public/app/domain/evolution.js:407-418 | 4 <= minimum <= maximum <= 10000, and every clamped target lies between them |
| Breeding.EstimateBounds | public/app/domain/evolution.js:397-440 | the initial size without variable population; otherwise in [minimum, maximum] with minimum >= 4, and the minimum when nobody survived |
| Breeding.PopulationRisesWithSignal | public/app/domain/evolution.js:428-439 | a stronger growth signal never gives a smaller population |
| Breeding.PopulationForMono | public/app/domain/evolution.js:434-439 | a larger target never gives a smaller population |
| Breeding.RoundedClampMono | public/app/domain/evolution.js:927-932 | rounding and clamping are monotone |
| Breeding.Jitter | public/app/domain/evolution.js:447-451 | the birth jitter lies in [−jitter, jitter] |
| Breeding.JitterRange | public/app/domain/evolution.js:504-506 | `randomFloat(−j, j)` lies in [−j, j] |
| Breeding.BirthEnergyBounds | public/app/domain/evolution.js:452-459 | a birth energy lies in [minBirthEnergy, maxEnergy] on the grid, and keeps an in-range value up to rounding |
| Breeding.JitteredBirth | public/app/domain/evolution.js:447-459 | a jittered birth energy stays in range, and within the jitter of the base when there is room |
| Breeding.InheritedEnergyBounds | public/app/domain/evolution.js:442-460 | inherited energy lies in [minBirthEnergy, maxEnergy], within the jitter of the parents' scaled mean when there is room |
| Breeding.InheritEnergy | public/app/domain/evolution.js:442-460 | one draw; the inherited energy the draw determines, in [minBirthEnergy, maxEnergy] |
| Breeding.CrossAndMutate | public/app/domain/evolution.js:285-290 | the genome is normalised and is the one `ChildGenome` gives: 8 crossover draws, then the mutation draws |
| Breeding.ChildGenome | public/app/domain/evolution.js:285-290 | a normalised genome after 16 to 24 draws; with rate 0, the normalised crossover after exactly 16 |
| Breeding.DrawnParents | public/app/domain/evolution.js:283-284 | both parents picked by two draws are members of the pool |
| Breeding.PickParents | public/app/domain/evolution.js:283-284 | two draws pick the parents `DrawnParents` names |
| Breeding.BredFrom | public/app/domain/evolution.js:285-303 | breeding from two parents uses 17 to 25 draws: the genome's and one for the energy |
| Breeding.BredFromChildOf | public/app/domain/evolution.js:283-304 | a bred child has id `g{next}-i{k+1}`, the two parents' ids, age max + 1, energy in [minBirthEnergy, maxEnergy] and a normalised genome |
| Breeding.BreedFrom | public/app/domain/evolution.js:285-303 | the child and draws are those `BredFrom` gives from the stream |
| Breeding.BreedChild | public/app/domain/evolution.js:283-304 | the parents are those the first two draws pick, and the child is the one `BredFrom` gives from the draws after them |
| Breeding.BredRun | public/app/domain/evolution.js:282-305 | n children, each with its pair of parents, child k bred from the draws after child k − 1 |
| Breeding.BredSnoc | public/app/domain/evolution.js:282-305 | one more bred child keeps the population bred |
| Breeding.BreedChildren | public/app/domain/evolution.js:282-305 | exactly `target` children, each `BredRun` gives from the stream, child k bred from two members of the pool with id, age, energy and genome as `BredFromChildOf` states |
| Breeding.AllLiving | public/app/domain/evolution.js:271 | filtering records that are all alive keeps them all |
| Breeding.BreedNextPopulation | public/app/domain/evolution.js:263-306 | exactly the estimated number of children, each bred from the selected parents and exactly the run of children the draws after the selection give; fails exactly when there are no records but a positive target |
| Simulation.FlatRecords | public/app/domain/evolution.js:148 | no generation, no record |
| Simulation.FlatRecordsLayout | public/app/domain/evolution.js:148 | generation i's records sit, in order, after those of the generations before it |
| Simulation.ChainedSnoc | public/app/domain/evolution.js:108-146 | a sound next generation of the estimated size extends the run |
| Simulation.NeverEmpty | public/app/domain/evolution.js:136-145 | a run with founders never breeds an empty population |
| Simulation.EmptyGenerationTarget | public/app/domain/evolution.js:419-421 | with no records the target is at least 4 under variable population, otherwise 0 |
| Simulation.BredLines | public/app/domain/evolution.js:282-305 | bred children can write poems (their genomes have lines) |
| Simulation.Founders | public/app/domain/evolution.js:101-104 | n founders `g1-i1`..`g1-in` with no parents at age 0, 8 draws each |
| Simulation.RunGeneration | public/app/domain/evolution.js:109-134 | the generation's evaluation is sound; its environment is the resolved one; the new stress map covers every nutrient with values in [0, 1] |
| Simulation.NextIndividuals | public/app/domain/evolution.js:136-145 | the next population has the estimated size; it fails exactly when the generation had no records but a positive target |
| Simulation.RunGenerations | public/app/domain/evolution.js:101-146 | `generationCount` generations numbered from 1, the first of the initial size, each later one of the size estimated from the previous; fails exactly for an empty start with variable population and two or more generations |
| Simulation.Assemble | public/app/domain/evolution.js:148-161 | the result holds the seed, the generations, their flattened records, the last generation or none, the specimens and the configs |
| Simulation.RunSimulation | public/app/domain/evolution.js:81-162 | the normalised seed and configs; `generationCount` chained sound generations; records, final generation and specimens derived from them; fails exactly when the source throws |

## Left out

- The clock read of `normalizeSeed` is the parameter `now`; `runSimulation`'s own call takes it as an input.
- Bit-exact doubles: arithmetic on scores, energies, ratios and stresses is exact real arithmetic, and `toFixed(3)` is rounding half away from zero on the exact value. Only the RNG is bit-exact.
- NaN and infinities: a non-finite or missing field is `None` (configs) or `NonFinite` (raw genome fields) and takes the documented fallback.
- `toKey`'s NFKC normalisation and the Unicode punctuation and symbol classes: keys use ASCII lowercasing and an explicit set of blank, punctuation and symbol characters, so they agree with the source only on such text.
- `toLowerCase` in `findToxicHits` folds ASCII letters only.
- The reason strings are the constructors of a `Reason` datatype, one per Japanese tag of the source.
- Breeding.SelectParents: the retry loop of `selectParents` has no bound in the source; here it makes at most `retryBudget` picks, and the two-parent guarantee is stated for a loop that ends within the budget.
- Breeding.SelectParents: requires a normalised evolution config, which is the only kind `runSimulation` passes.
- Breeding.BreedNextPopulation: the failure of `pick` on an empty pool, a thrown TypeError in the source, is `None`.
- Random.ParseInt: a run of digits too long for a double (over about 309 digits) parses to `Infinity` in the source, and `normalizeSeed` then falls back to the clock; here it is the exact integer. Values above 2^53 are likewise rounded to a double before `>>> 0` in the source, while the model takes the exact integer modulo 2^32.
- Poems.NextToken: states where each token comes from, not which draws choose it.
- Poems.BuildLineTokens: same as Poems.NextToken.
- Poems.GeneratePoem: requires at least one line when there are nutrients (a normalised genome has at least 4). The source would call `split` on an undefined line in that case.
- Simulation.RunGeneration: states the soundness of the evaluation (ranking, winners, counts, energy accounts) and the shape of the new stress map, not the record-by-record contents that `Generations.EvaluateGeneration` and `Environment.EvolveResourceState` state.
- Simulation.RunSimulation: same as Simulation.RunGeneration for every generation; the exact record contents and stress values are stated one call down.
- Generations.RankByScore: the source's sort is stable and so is the insertion sort here, but the tie order is not stated in a contract.
- The rest of the repository — the browser UI, the storage layer, the HTTP API and the static gallery data — is not part of this model.
