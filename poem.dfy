/** The procedural poem generator: lines of tokens drawn from a concrete or
    an abstract pool mixed with the nutrient words, decorated with particles
    and at most one conjunction, with a nutrient forced in when none was
    used and an ending on the last line; plus the text statistics the
    health diagnostic reads. */
module Poems {
  import opened Wrappers
  import opened Numeric
  import opened Random
  import opened Text
  import opened Genomes

  const ConcreteBase: seq<string> :=
    ["石", "扉", "硝子", "糸", "川", "塩", "手", "蝶番", "窓", "種", "雨", "縄"]
  const AbstractBase: seq<string> :=
    ["記憶", "余白", "信号", "許し", "沈黙", "不在", "反響", "漂い", "意図", "影", "間隔", "息"]
  const AssertiveEndings: seq<string> :=
    ["だ", "と決める", "である", "は動かない", "を選ぶ", "を掲げる", "と断つ", "と名づける"]
  const AfterglowEndings: seq<string> :=
    ["まだ消えない", "薄れてゆく", "しばらく残る", "閉じきらない", "ほどけていく", "遠くで揺れる",
     "余熱を抱える", "名残になる"]
  const ParticleTokens: seq<string> := ["の", "に", "へ", "で", "と"]
  const ConjunctionTokens: seq<string> := ["ただ", "そして"]
  const MaxConjunctionsPerPoem: nat := 1

  const DefaultParticleRate: real := 0.1
  const DefaultConjunctionRate: real := 0.03

  /** `poemStyleConfig` as a caller passes it: a missing or non-finite rate
      is `None`. */
  datatype StyleInput = StyleInput(particleRate: Option<real>, conjunctionRate: Option<real>)

  datatype StyleConfig = StyleConfig(particleRate: real, conjunctionRate: real)

  /** `normalizePoemStyleConfig(config)`. */
  function NormalizePoemStyleConfig(input: StyleInput): (c: StyleConfig)
    ensures 0.0 <= c.particleRate <= 1.0 && 0.0 <= c.conjunctionRate <= 1.0
    ensures input.particleRate.None? ==> c.particleRate == DefaultParticleRate
    ensures input.conjunctionRate.None? ==> c.conjunctionRate == DefaultConjunctionRate
    ensures input.particleRate.Some? && 0.0 <= input.particleRate.value <= 1.0 ==>
      c.particleRate == input.particleRate.value
    ensures input.conjunctionRate.Some? && 0.0 <= input.conjunctionRate.value <= 1.0 ==>
      c.conjunctionRate == input.conjunctionRate.value
  {
    StyleConfig(
      ClampNumber(input.particleRate, 0.0, 1.0, DefaultParticleRate),
      ClampNumber(input.conjunctionRate, 0.0, 1.0, DefaultConjunctionRate))
  }

  /** `pick(list, rng)` of the poem generator: "" and no draw for an empty
      list, otherwise the element at `randomInt(0, length - 1)`. */
  method PickWord(list: seq<string>, rng: Rng) returns (w: string)
    requires rng.Valid()
    modifies rng
    ensures rng.Valid()
    ensures list == [] ==> w == "" && rng.draws == old(rng.draws)
    ensures list != [] ==> rng.draws == old(rng.draws) + 1 && w in list
    ensures list != [] ==> w == list[FromDraw(Draw(rng.seed, old(rng.draws)), 0, |list| - 1)]
  {
    var r := rng.Pick(list);
    w := r.GetOr("");
  }

  // ---------------------------------------------------------------- lines

  /** `Math.ceil(n / 3)` on an integer. */
  function CeilThird(n: int): (r: int)
    ensures 3 * r - 3 < n <= 3 * r
  {
    -((-n) / 3)
  }

  /** `Math.max(3, Math.ceil(lineLen / 3))`: the most tokens a line gets. */
  function MaxTokens(lineLen: int): (r: int)
    ensures r >= 3 && r >= CeilThird(lineLen)
    ensures r == 3 || r == CeilThird(lineLen)
  {
    MaxInt(3, CeilThird(lineLen))
  }

  /** `charLength(tokens)`: the length of the tokens joined by spaces. */
  function CharLength(tokens: seq<string>): nat {
    |Join(tokens, " ")|
  }

  /** Where a token of `buildLineTokens` can come from: the pool (or "" when
      the pool is empty), the nutrient list, or the previous line's last
      token. Repeating the line's own last token keeps it in one of these. */
  predicate FromSources(t: string, pool: seq<string>, nutrientList: seq<string>, previousToken: string) {
    t in pool || t in nutrientList || (t == previousToken && previousToken != "") || (pool == [] && t == "")
  }

  /** One token of `buildLineTokens`' loop: a pool word, maybe replaced by a
      nutrient, then maybe by the line's last token or, failing that, by the
      previous line's last token. */
  method NextToken(genome: Genome, nutrientList: seq<string>, pool: seq<string>, previousToken: string,
                   tokens: seq<string>, rng: Rng) returns (token: string)
    requires rng.Valid()
    modifies rng
    ensures rng.Valid() && rng.draws >= old(rng.draws)
    ensures FromSources(token, pool, nutrientList, previousToken) || token in tokens
  {
    token := PickWord(pool, rng);
    if nutrientList != [] {
      var nutrient := rng.Chance(genome.nutrientMix);
      if nutrient {
        token := PickWord(nutrientList, rng);
      }
    }
    var repeatLast := false;
    if tokens != [] {
      repeatLast := rng.Chance(genome.repetition * 0.55);
    }
    if repeatLast {
      token := tokens[|tokens| - 1];
    } else if previousToken != "" {
      var echo := rng.Chance(genome.repetition * 0.25);
      if echo {
        token := previousToken;
      }
    }
  }

  /** `buildLineTokens`: tokens are added while the joined line is shorter
      than `lineLen` and there are fewer than `MaxTokens(lineLen)`; a line
      that got none gets one pool word. */
  method BuildLineTokens(genome: Genome, nutrientList: seq<string>, pool: seq<string>, previousToken: string,
                         rng: Rng) returns (tokens: seq<string>)
    requires rng.Valid()
    modifies rng
    ensures rng.Valid() && rng.draws >= old(rng.draws)
    ensures 1 <= |tokens| <= MaxTokens(genome.lineLen)
    ensures forall t :: t in tokens ==> FromSources(t, pool, nutrientList, previousToken)
    // every token was added while the line was still short ...
    ensures genome.lineLen > 0 ==> forall k :: 0 <= k < |tokens| ==> CharLength(tokens[..k]) < genome.lineLen
    // ... and adding stopped as soon as it reached lineLen or the token limit
    ensures genome.lineLen > 0 ==> CharLength(tokens) >= genome.lineLen || |tokens| == MaxTokens(genome.lineLen)
    ensures genome.lineLen <= 0 ==> |tokens| == 1
  {
    var maxTokens := MaxTokens(genome.lineLen);
    tokens := [];
    while CharLength(tokens) < genome.lineLen && |tokens| < maxTokens
      invariant rng.Valid() && rng.draws >= old(rng.draws)
      invariant |tokens| <= maxTokens
      invariant forall t :: t in tokens ==> FromSources(t, pool, nutrientList, previousToken)
      invariant forall k :: 0 <= k < |tokens| ==> CharLength(tokens[..k]) < genome.lineLen
      decreases maxTokens - |tokens|
    {
      var token := NextToken(genome, nutrientList, pool, previousToken, tokens, rng);
      PrefixesExtend(tokens, token, genome.lineLen);
      tokens := tokens + [token];
    }
    if tokens == [] {
      var token := PickWord(pool, rng);
      tokens := [token];
    }
  }

  /** Appending a token keeps the earlier prefixes, and the old line becomes
      one more prefix. */
  lemma PrefixesExtend(tokens: seq<string>, token: string, lineLen: int)
    requires forall k :: 0 <= k < |tokens| ==> CharLength(tokens[..k]) < lineLen
    requires CharLength(tokens) < lineLen
    ensures forall k :: 0 <= k < |tokens + [token]| ==> CharLength((tokens + [token])[..k]) < lineLen
  {
    var next := tokens + [token];
    forall k | 0 <= k < |next|
      ensures CharLength(next[..k]) < lineLen
    {
      assert next[..k] == tokens[..k];
    }
  }

  // ------------------------------------------------------------ decoration

  /** `out` is `ts` with at most one particle inserted before each token. */
  ghost predicate Interleaved(ts: seq<string>, out: seq<string>)
    decreases |ts|
  {
    if ts == [] then out == []
    else
      && out != [] && out[|out| - 1] == ts[|ts| - 1]
      && (|| Interleaved(ts[..|ts| - 1], out[..|out| - 1])
          || (|out| >= 2 && out[|out| - 2] in ParticleTokens && Interleaved(ts[..|ts| - 1], out[..|out| - 2])))
  }

  /** What `insertParticles` may return for `ts`: the first token stays
      first, and particles go only between the later tokens. */
  ghost predicate WithParticles(ts: seq<string>, out: seq<string>) {
    if ts == [] then out == [] else out != [] && out[0] == ts[0] && Interleaved(ts[1..], out[1..])
  }

  /** xs occurs in ys in order (not necessarily contiguously). */
  ghost predicate Subsequence(xs: seq<string>, ys: seq<string>)
    decreases |ys|
  {
    if xs == [] then true
    else if ys == [] then false
    else if xs[|xs| - 1] == ys[|ys| - 1] then Subsequence(xs[..|xs| - 1], ys[..|ys| - 1])
    else Subsequence(xs, ys[..|ys| - 1])
  }

  lemma {:induction false} SubsequenceSnoc(xs: seq<string>, ys: seq<string>, y: string)
    requires Subsequence(xs, ys)
    ensures Subsequence(xs, ys + [y])
    decreases |ys|, 1
  {
    var ys' := ys + [y];
    assert ys'[..|ys'| - 1] == ys;
    if xs != [] && xs[|xs| - 1] == y {
      SubsequencePrefix(xs, ys);
    }
  }

  lemma {:induction false} SubsequencePrefix(xs: seq<string>, ys: seq<string>)
    requires xs != [] && Subsequence(xs, ys)
    ensures Subsequence(xs[..|xs| - 1], ys)
    decreases |ys|, 0
  {
    var init := xs[..|xs| - 1];
    if xs[|xs| - 1] == ys[|ys| - 1] {
      if init != [] {
        SubsequenceSnoc(init, ys[..|ys| - 1], ys[|ys| - 1]);
        assert ys[..|ys| - 1] + [ys[|ys| - 1]] == ys;
      }
    } else {
      SubsequencePrefix(xs, ys[..|ys| - 1]);
      if init != [] {
        SubsequenceSnoc(init, ys[..|ys| - 1], ys[|ys| - 1]);
        assert ys[..|ys| - 1] + [ys[|ys| - 1]] == ys;
      }
    }
  }

  /** An interleaving keeps the tokens in order, adds only particles, and
      at most doubles the length. */
  lemma {:induction false} InterleavedKeeps(ts: seq<string>, out: seq<string>)
    requires Interleaved(ts, out)
    ensures Subsequence(ts, out)
    ensures |ts| <= |out| <= 2 * |ts|
    ensures forall x :: x in out ==> x in ts || x in ParticleTokens
    decreases |ts|
  {
    if ts != [] {
      var init := ts[..|ts| - 1];
      var last := ts[|ts| - 1];
      assert ts == init + [last];
      if Interleaved(init, out[..|out| - 1]) {
        InterleavedKeeps(init, out[..|out| - 1]);
        assert out == out[..|out| - 1] + [last];
      } else {
        var front := out[..|out| - 2];
        InterleavedKeeps(init, front);
        assert out == front + [out[|out| - 2]] + [last];
        SubsequenceSnoc(init, front, out[|out| - 2]);
        assert (front + [out[|out| - 2]]) == out[..|out| - 1];
      }
    }
  }

  /** The identity is an interleaving (with no particle). */
  lemma {:induction false} InterleavedSelf(ts: seq<string>)
    ensures Interleaved(ts, ts)
    decreases |ts|
  {
    if ts != [] {
      InterleavedSelf(ts[..|ts| - 1]);
    }
  }

  /** What `insertParticles` promises: the original tokens in order with the
      first one first, and nothing but particles added. */
  lemma WithParticlesKeeps(ts: seq<string>, out: seq<string>)
    requires WithParticles(ts, out)
    ensures Subsequence(ts, out)
    ensures |ts| <= |out| <= 2 * |ts|
    ensures ts != [] ==> out[0] == ts[0]
    ensures forall x :: x in out ==> x in ts || x in ParticleTokens
  {
    if ts != [] {
      InterleavedKeeps(ts[1..], out[1..]);
      SubsequenceCons(ts[0], ts[1..], out[1..]);
      assert [ts[0]] + ts[1..] == ts;
      assert [out[0]] + out[1..] == out;
      forall x | x in out
        ensures x in ts || x in ParticleTokens
      {
        if x != out[0] {
          assert x in out[1..];
        }
      }
    }
  }

  lemma {:induction false} SubsequenceCons(x: string, xs: seq<string>, ys: seq<string>)
    requires Subsequence(xs, ys)
    ensures Subsequence([x] + xs, [x] + ys)
    decreases |ys|
  {
    var xs' := [x] + xs;
    var ys' := [x] + ys;
    if xs == [] {
      SubsequenceOne(x, ys);
      assert xs' == [x];
    } else if ys == [] {
    } else {
      assert xs'[..|xs'| - 1] == [x] + xs[..|xs| - 1];
      assert ys'[..|ys'| - 1] == [x] + ys[..|ys| - 1];
      if xs[|xs| - 1] == ys[|ys| - 1] {
        SubsequenceCons(x, xs[..|xs| - 1], ys[..|ys| - 1]);
      } else {
        SubsequenceCons(x, xs, ys[..|ys| - 1]);
      }
    }
  }

  lemma {:induction false} SubsequenceOne(x: string, ys: seq<string>)
    ensures Subsequence([x], [x] + ys)
    decreases |ys|
  {
    var ys' := [x] + ys;
    if ys != [] {
      assert ys'[..|ys'| - 1] == [x] + ys[..|ys| - 1];
      if x != ys[|ys| - 1] {
        SubsequenceOne(x, ys[..|ys| - 1]);
      } else {
        assert ([x] + ys)[..|ys'| - 1] == [x] + ys[..|ys| - 1];
      }
    }
  }

  /** `insertParticles(tokens, particleRate, rng)`: before every token but
      the first, a draw below the rate inserts a picked particle. */
  method InsertParticles(tokens: seq<string>, particleRate: real, rng: Rng) returns (out: seq<string>)
    requires rng.Valid()
    modifies rng
    ensures rng.Valid() && rng.draws >= old(rng.draws)
    ensures WithParticles(tokens, out)
    ensures |tokens| <= 1 || particleRate <= 0.0 ==> out == tokens && rng.draws == old(rng.draws)
  {
    if |tokens| <= 1 || particleRate <= 0.0 {
      out := tokens;
      if tokens != [] {
        InterleavedSelf(tokens[1..]);
      }
      return;
    }
    out := [tokens[0]];
    for i := 1 to |tokens|
      invariant rng.Valid() && rng.draws >= old(rng.draws)
      invariant out != [] && out[0] == tokens[0]
      invariant Interleaved(tokens[1..i], out[1..])
    {
      var before := out;
      var particle := rng.Chance(particleRate);
      if particle {
        var p := PickWord(ParticleTokens, rng);
        out := out + [p];
      }
      out := out + [tokens[i]];
      assert tokens[1..i + 1][..i - 1] == tokens[1..i];
      assert out[1..][..|out| - 2] == out[1..|out| - 1];
      if particle {
        assert out[1..][..|out| - 3] == before[1..];
      } else {
        assert out[1..|out| - 1] == before[1..];
      }
    }
    assert tokens[1..|tokens|] == tokens[1..];
  }

  /** `decorateLineTokens`: particles, then, on a line other than the first
      and while the poem has no conjunction yet, a draw below the rate puts
      a picked conjunction in front. */
  method DecorateLineTokens(tokens: seq<string>, style: StyleConfig, lineIndex: nat, allowConjunction: bool,
                            rng: Rng) returns (out: seq<string>, usedConjunction: bool)
    requires rng.Valid()
    modifies rng
    ensures rng.Valid() && rng.draws >= old(rng.draws)
    ensures usedConjunction ==> allowConjunction && lineIndex != 0
    ensures usedConjunction ==> out != [] && out[0] in ConjunctionTokens && WithParticles(tokens, out[1..])
    ensures !usedConjunction ==> WithParticles(tokens, out)
  {
    var withParticles := InsertParticles(tokens, style.particleRate, rng);
    out, usedConjunction := withParticles, false;
    if allowConjunction && lineIndex != 0 {
      // `rng() >= conjunctionRate` skips the conjunction
      var hit := rng.Chance(style.conjunctionRate);
      if hit {
        var c := PickWord(ConjunctionTokens, rng);
        out, usedConjunction := [c] + withParticles, true;
        assert out[1..] == withParticles;
      }
    }
  }

  // ------------------------------------------------------------- nutrients

  /** `nutrientMap.get(key)`: the map is built from the nutrient list in
      order, so the last word with that key wins. */
  function LookupNutrient(nutrientList: seq<string>, key: string): (r: Option<string>)
    ensures r.Some? ==> r.value in nutrientList && ToKey(r.value) == key
    ensures r.None? <==> forall w :: w in nutrientList ==> ToKey(w) != key
  {
    if nutrientList == [] then None
    else
      var last := nutrientList[|nutrientList| - 1];
      if ToKey(last) == key then Some(last)
      else
        var r := LookupNutrient(nutrientList[..|nutrientList| - 1], key);
        assert forall w :: w in nutrientList ==> w == last || w in nutrientList[..|nutrientList| - 1];
        r
  }

  /** The nutrient a token counts as: the word with the same key, when that
      word is non-empty (the `if (matched)` test). */
  function Matched(token: string, nutrientList: seq<string>): Option<string> {
    var m := LookupNutrient(nutrientList, ToKey(token));
    if m.Some? && m.value != "" then m else None
  }

  /** No word occurs twice. */
  ghost predicate Distinct(xs: seq<string>) {
    forall i, j :: 0 <= i < j < |xs| ==> xs[i] != xs[j]
  }

  /** `set.add(x)` on a set kept as its insertion-ordered elements. */
  function SetAdd(xs: seq<string>, x: string): (r: seq<string>)
    ensures Distinct(xs) ==> Distinct(r)
    ensures forall w :: w in r <==> w in xs || w == x
    ensures xs <= r
  {
    if x in xs then xs else xs + [x]
  }

  /** The match of every token of a line, in order. */
  function MatchesOf(ts: seq<string>, nutrientList: seq<string>): (ms: seq<Option<string>>)
    ensures |ms| == |ts|
    ensures forall k :: 0 <= k < |ts| ==> ms[k] == Matched(ts[k], nutrientList)
  {
    if ts == [] then [] else MatchesOf(ts[..|ts| - 1], nutrientList) + [Matched(ts[|ts| - 1], nutrientList)]
  }

  /** The used set after adding the matches ms in order. */
  function Mark(used: seq<string>, ms: seq<Option<string>>): seq<string> {
    if ms == [] then used
    else
      var prev := Mark(used, ms[..|ms| - 1]);
      var m := ms[|ms| - 1];
      if m.Some? then SetAdd(prev, m.value) else prev
  }

  /** Marking adds to the used set exactly the nutrients matched, only
      adds, and adds nothing twice. */
  lemma {:induction false} MarkContents(used: seq<string>, ms: seq<Option<string>>)
    ensures forall w :: w in Mark(used, ms) <==> w in used || Some(w) in ms
    ensures used <= Mark(used, ms)
    ensures Distinct(used) ==> Distinct(Mark(used, ms))
  {
    if ms != [] {
      var init := ms[..|ms| - 1];
      MarkContents(used, init);
      assert ms == init + [ms[|ms| - 1]];
    }
  }

  /** The `for (const token of lineTokens)` loop of `generatePoem`: every
      token matching a nutrient adds that nutrient to the used set. */
  method MarkNutrients(used: seq<string>, lineTokens: seq<string>, nutrientList: seq<string>)
    returns (next: seq<string>)
    ensures next == Mark(used, MatchesOf(lineTokens, nutrientList))
  {
    next := used;
    for i := 0 to |lineTokens|
      invariant next == Mark(used, MatchesOf(lineTokens[..i], nutrientList))
    {
      assert lineTokens[..i + 1][..i] == lineTokens[..i];
      var m := Matched(lineTokens[i], nutrientList);
      if m.Some? {
        next := SetAdd(next, m.value);
      }
    }
    assert lineTokens[..|lineTokens|] == lineTokens;
  }

  /** The used set after a line holds what it held before and the nutrients
      that some token of the line matches, each once. */
  lemma MarkedNutrients(used: seq<string>, lineTokens: seq<string>, nutrientList: seq<string>)
    ensures var next := Mark(used, MatchesOf(lineTokens, nutrientList));
      && used <= next
      && (Distinct(used) ==> Distinct(next))
      && (forall w :: w in next <==>
            w in used || exists k :: 0 <= k < |lineTokens| && Matched(lineTokens[k], nutrientList) == Some(w))
      && ((forall w :: w in used ==> w in nutrientList) ==> forall w :: w in next ==> w in nutrientList)
  {
    MarkContents(used, MatchesOf(lineTokens, nutrientList));
    MatchedInLine(lineTokens, nutrientList);
  }

  /** A nutrient is among a line's matches when some token of the line
      matches it. */
  lemma MatchedInLine(ts: seq<string>, nutrientList: seq<string>)
    ensures forall w :: Some(w) in MatchesOf(ts, nutrientList) <==>
      exists k :: 0 <= k < |ts| && Matched(ts[k], nutrientList) == Some(w)
  {
    var ms := MatchesOf(ts, nutrientList);
    forall w ensures Some(w) in ms <==> exists k :: 0 <= k < |ts| && Matched(ts[k], nutrientList) == Some(w) {
      if Some(w) in ms {
        var k :| 0 <= k < |ms| && ms[k] == Some(w);
        assert Matched(ts[k], nutrientList) == Some(w);
      }
      if exists k :: 0 <= k < |ts| && Matched(ts[k], nutrientList) == Some(w) {
        var k :| 0 <= k < |ts| && Matched(ts[k], nutrientList) == Some(w);
        assert ms[k] == Some(w);
      }
    }
  }

  /** Marking keeps the used set free of repeats and inside the nutrient list. */
  lemma MarkKeepsUsed(used: seq<string>, lineTokens: seq<string>, nutrientList: seq<string>)
    requires Distinct(used) && forall w :: w in used ==> w in nutrientList
    ensures var next := Mark(used, MatchesOf(lineTokens, nutrientList));
      Distinct(next) && forall w :: w in next ==> w in nutrientList
  {
    MarkedNutrients(used, lineTokens, nutrientList);
  }

  // ---------------------------------------------------------------- poem

  /** One pass of the line loop of `generatePoem`: the pool is chosen by a
      draw against the concreteness, the line is built from it and then
      decorated; the nutrients its tokens match join the used set, and its
      last base token, unless empty, becomes the previous token. */
  method ComposeLine(genome: Genome, nutrientList: seq<string>, concretePool: seq<string>,
                     abstractPool: seq<string>, style: StyleConfig, lineIndex: nat, allowConjunction: bool,
                     previousToken: string, used: seq<string>, rng: Rng)
    returns (line: string, nextUsed: seq<string>, nextPrevious: string, usedConjunction: bool,
             ghost baseTokens: seq<string>, ghost lineTokens: seq<string>)
    requires rng.Valid()
    requires previousToken == "" || previousToken in concretePool + abstractPool + nutrientList
    modifies rng
    ensures rng.Valid() && rng.draws > old(rng.draws)
    ensures ComposedLine(line, baseTokens, lineTokens, usedConjunction, genome.lineLen,
                         concretePool + abstractPool + nutrientList)
    ensures usedConjunction ==> allowConjunction && lineIndex != 0
    ensures nextUsed == Mark(used, MatchesOf(lineTokens, nutrientList))
    ensures nextPrevious == (if baseTokens[|baseTokens| - 1] != "" then baseTokens[|baseTokens| - 1] else previousToken)
    ensures nextPrevious == "" || nextPrevious in concretePool + abstractPool + nutrientList
  {
    var concrete := rng.Chance(genome.concreteness);
    var pool := if concrete then concretePool else abstractPool;
    var base := BuildLineTokens(genome, nutrientList, pool, previousToken, rng);
    var decorated;
    decorated, usedConjunction := DecorateLineTokens(base, style, lineIndex, allowConjunction, rng);
    BaseFromSources(base, concretePool, abstractPool, nutrientList, previousToken);
    // `baseTokens[baseTokens.length - 1] || previousToken`
    nextPrevious := if base[|base| - 1] != "" then base[|base| - 1] else previousToken;
    nextUsed := MarkNutrients(used, decorated, nutrientList);
    line := Join(decorated, " ");
    baseTokens, lineTokens := base, decorated;
  }

  /** The decorated tokens of a line: its base tokens with particles, led
      by a conjunction exactly when `conjunction` holds. */
  ghost predicate Decorated(base: seq<string>, tokens: seq<string>, conjunction: bool) {
    if conjunction then tokens != [] && tokens[0] in ConjunctionTokens && WithParticles(base, tokens[1..])
    else WithParticles(base, tokens)
  }

  /** Line `line` of the loop of `generatePoem`: its text is its decorated
      tokens joined by spaces, the base tokens number 1 to `MaxTokens` and
      come from the pools, the nutrients or an earlier line. */
  ghost predicate ComposedLine(line: string, base: seq<string>, tokens: seq<string>, conjunction: bool,
                               lineLen: int, sources: seq<string>) {
    && line == Join(tokens, " ")
    && 1 <= |base| <= MaxTokens(lineLen)
    && (forall t :: t in base ==> t in sources || t == "")
    && Decorated(base, tokens, conjunction)
  }

  /** The used set after the lines' decorated tokens, line by line, token by
      token: the `usedNutrients` set of `generatePoem` before any forcing. */
  function UsedBy(tokens: seq<seq<string>>, nutrientList: seq<string>): seq<string> {
    if tokens == [] then []
    else Mark(UsedBy(tokens[..|tokens| - 1], nutrientList), MatchesOf(tokens[|tokens| - 1], nutrientList))
  }

  /** Some token of one line matches the nutrient w. */
  ghost predicate LineMatches(ts: seq<string>, nutrientList: seq<string>, w: string) {
    exists k :: 0 <= k < |ts| && Matched(ts[k], nutrientList) == Some(w)
  }

  /** Some token of some line matches the nutrient w. */
  ghost predicate MatchedIn(tokens: seq<seq<string>>, nutrientList: seq<string>, w: string) {
    exists i :: 0 <= i < |tokens| && LineMatches(tokens[i], nutrientList, w)
  }

  lemma MatchedInSnoc(tokens: seq<seq<string>>, nutrientList: seq<string>, w: string)
    requires tokens != []
    ensures MatchedIn(tokens, nutrientList, w) <==>
      MatchedIn(tokens[..|tokens| - 1], nutrientList, w) || LineMatches(tokens[|tokens| - 1], nutrientList, w)
  {
    ExistsSnoc(tokens, tokens[..|tokens| - 1], ts => LineMatches(ts, nutrientList, w));
  }

  /** Some element of a non-empty list satisfies p iff some element of its
      front `init` does or its last one does. */
  lemma ExistsSnoc<T>(xs: seq<T>, init: seq<T>, p: T -> bool)
    requires xs != [] && init == xs[..|xs| - 1]
    ensures (exists i :: 0 <= i < |xs| && p(xs[i])) <==>
      (exists i :: 0 <= i < |init| && p(init[i])) || p(xs[|xs| - 1])
  {
    if exists i :: 0 <= i < |xs| && p(xs[i]) {
      var i :| 0 <= i < |xs| && p(xs[i]);
      if i < |init| {
        assert init[i] == xs[i];
      }
    }
    if exists i :: 0 <= i < |init| && p(init[i]) {
      var i :| 0 <= i < |init| && p(init[i]);
      assert xs[i] == init[i];
    }
  }

  /** The used set holds, once each, exactly the nutrients some token of
      some line matches. */
  lemma {:induction false} UsedByContents(tokens: seq<seq<string>>, nutrientList: seq<string>)
    ensures Distinct(UsedBy(tokens, nutrientList))
    ensures forall w :: w in UsedBy(tokens, nutrientList) ==> w in nutrientList
    ensures forall w :: w in UsedBy(tokens, nutrientList) <==> MatchedIn(tokens, nutrientList, w)
  {
    if tokens != [] {
      var init := tokens[..|tokens| - 1];
      var last := tokens[|tokens| - 1];
      UsedByContents(init, nutrientList);
      MarkedNutrients(UsedBy(init, nutrientList), last, nutrientList);
      forall w
        ensures w in UsedBy(tokens, nutrientList) <==> MatchedIn(tokens, nutrientList, w)
      {
        MatchedInSnoc(tokens, nutrientList, w);
      }
    }
  }

  /** The parts of lines 0 to |lines| - 1 fit, line by line. */
  ghost predicate AllComposed(lines: seq<string>, bases: seq<seq<string>>, tokens: seq<seq<string>>,
                              conjunctionLines: seq<nat>, lineLen: int, sources: seq<string>) {
    && |bases| == |lines| && |tokens| == |lines|
    && forall i :: 0 <= i < |lines| ==>
         ComposedLine(lines[i], bases[i], tokens[i], i in conjunctionLines, lineLen, sources)
  }

  /** The line loop of `generatePoem`. `bases` and `tokens` are each line's
      base and decorated tokens, `conjunctionLines` the lines that got a
      conjunction. */
  method ComposeLines(genome: Genome, nutrientList: seq<string>, concretePool: seq<string>,
                      abstractPool: seq<string>, style: StyleConfig, rng: Rng)
    returns (lines: seq<string>, used: seq<string>, ghost bases: seq<seq<string>>, ghost tokens: seq<seq<string>>,
             ghost conjunctionLines: seq<nat>)
    requires rng.Valid()
    modifies rng
    ensures rng.Valid() && rng.draws >= old(rng.draws)
    ensures |lines| == MaxInt(0, genome.lines)
    ensures AllComposed(lines, bases, tokens, conjunctionLines, genome.lineLen, concretePool + abstractPool + nutrientList)
    ensures |conjunctionLines| <= MaxConjunctionsPerPoem
    ensures forall i :: 0 <= i < |conjunctionLines| ==> 0 < conjunctionLines[i] < |lines|
    ensures used == UsedBy(tokens, nutrientList)
  {
    ghost var sources := concretePool + abstractPool + nutrientList;
    lines, used, bases, tokens, conjunctionLines := [], [], [], [], [];
    var conjunctionsUsed := 0;
    var previousToken := "";
    for lineIndex := 0 to MaxInt(0, genome.lines)
      invariant rng.Valid() && rng.draws >= old(rng.draws)
      invariant |lines| == lineIndex
      invariant previousToken == "" || previousToken in sources
      invariant AllComposed(lines, bases, tokens, conjunctionLines, genome.lineLen, sources)
      invariant conjunctionsUsed == |conjunctionLines| <= MaxConjunctionsPerPoem
      invariant forall i :: 0 <= i < |conjunctionLines| ==> 0 < conjunctionLines[i] < lineIndex
      invariant used == UsedBy(tokens, nutrientList)
    {
      var line, nextUsed, nextPrevious, usedConjunction, baseTokens, lineTokens :=
        ComposeLine(genome, nutrientList, concretePool, abstractPool, style, lineIndex,
                    conjunctionsUsed < MaxConjunctionsPerPoem, previousToken, used, rng);
      ghost var before := conjunctionLines;
      if usedConjunction {
        conjunctionsUsed := conjunctionsUsed + 1;
        conjunctionLines := conjunctionLines + [lineIndex];
      }
      ComposeStep(lines, bases, tokens, before, conjunctionLines, line, baseTokens, lineTokens, usedConjunction,
                  genome.lineLen, sources, nutrientList);
      lines, bases, tokens := lines + [line], bases + [baseTokens], tokens + [lineTokens];
      used, previousToken := nextUsed, nextPrevious;
    }
  }

  /** One pass of the line loop keeps the loop's invariant: the lines' parts
      fit, conjunctions stay off line 0 and below the line count, and the
      used set is the one the tokens give. */
  lemma ComposeStep(lines: seq<string>, bases: seq<seq<string>>, tokens: seq<seq<string>>, before: seq<nat>,
                    after: seq<nat>, line: string, base: seq<string>, toks: seq<string>, usedConjunction: bool,
                    lineLen: int, sources: seq<string>, nutrientList: seq<string>)
    requires AllComposed(lines, bases, tokens, before, lineLen, sources)
    requires forall i :: 0 <= i < |before| ==> 0 < before[i] < |lines|
    requires after == if usedConjunction then before + [|lines|] else before
    requires usedConjunction ==> |lines| != 0
    requires ComposedLine(line, base, toks, usedConjunction, lineLen, sources)
    ensures AllComposed(lines + [line], bases + [base], tokens + [toks], after, lineLen, sources)
    ensures forall i :: 0 <= i < |after| ==> 0 < after[i] < |lines| + 1
    ensures UsedBy(tokens + [toks], nutrientList) == Mark(UsedBy(tokens, nutrientList), MatchesOf(toks, nutrientList))
  {
    ComposedSnoc(lines, bases, tokens, before, after, usedConjunction, line, base, toks, lineLen, sources);
    UsedBySnoc(tokens, toks, nutrientList);
  }

  /** A base token comes from the pools or the nutrients when the previous
      line's token does. */
  lemma BaseFromSources(base: seq<string>, concretePool: seq<string>, abstractPool: seq<string>,
                        nutrientList: seq<string>, previousToken: string)
    requires previousToken == "" || previousToken in concretePool + abstractPool + nutrientList
    requires forall t :: t in base ==>
      FromSources(t, concretePool, nutrientList, previousToken) || FromSources(t, abstractPool, nutrientList, previousToken)
    ensures forall t :: t in base ==> t in concretePool + abstractPool + nutrientList || t == ""
  {
  }

  lemma UsedBySnoc(tokens: seq<seq<string>>, ts: seq<string>, nutrientList: seq<string>)
    ensures UsedBy(tokens + [ts], nutrientList) == Mark(UsedBy(tokens, nutrientList), MatchesOf(ts, nutrientList))
  {
    assert (tokens + [ts])[..|tokens|] == tokens;
  }

  /** Appending a line whose parts fit keeps every earlier line's parts,
      when the conjunction lines before it are unchanged. */
  lemma ComposedSnoc(lines: seq<string>, bases: seq<seq<string>>, tokens: seq<seq<string>>, before: seq<nat>,
                     after: seq<nat>, conjunction: bool, line: string, base: seq<string>, toks: seq<string>,
                     lineLen: int, sources: seq<string>)
    requires AllComposed(lines, bases, tokens, before, lineLen, sources)
    requires forall i :: 0 <= i < |before| ==> before[i] < |lines|
    requires after == if conjunction then before + [|lines|] else before
    requires ComposedLine(line, base, toks, conjunction, lineLen, sources)
    ensures AllComposed(lines + [line], bases + [base], tokens + [toks], after, lineLen, sources)
  {
    assert |lines| in after <==> conjunction;
    forall i | 0 <= i < |lines| + 1
      ensures ComposedLine((lines + [line])[i], (bases + [base])[i], (tokens + [toks])[i], i in after, lineLen, sources)
    {
      if i < |lines| {
        assert i in after <==> i in before;
        assert (lines + [line])[i] == lines[i] && (bases + [base])[i] == bases[i] && (tokens + [toks])[i] == tokens[i];
      } else {
        assert (lines + [line])[i] == line && (bases + [base])[i] == base && (tokens + [toks])[i] == toks;
      }
    }
  }


  /** The items of `line.split(" ").filter(Boolean)`. */
  function Segments(line: string): seq<string> {
    NonEmpty(Split(line, ' '))
  }

  /** `xs.splice(i, 0, x)`. */
  function Splice(xs: seq<string>, i: nat, x: string): (r: seq<string>)
    requires i <= |xs|
    ensures |r| == |xs| + 1 && r[i] == x
    ensures r[..i] == xs[..i] && r[i + 1..] == xs[i..]
  {
    xs[..i] + [x] + xs[i..]
  }

  /** The line `injectToken(line, token, rng)` returns when draw `at` is
      the next one: a line with no segments becomes the token alone. */
  function Injected(line: string, token: string, seed: Uint32, at: nat): (r: string)
    ensures Segments(line) == [] ==> r == Trim(token)
  {
    var segments := Segments(line);
    if segments == [] then Trim(token)
    else Trim(Join(Splice(segments, FromDraw(Draw(seed, at), 0, |segments|), token), " "))
  }

  /** The draws `injectToken` takes: none for a line with no segments. */
  function InjectDraws(line: string): nat {
    if Segments(line) == [] then 0 else 1
  }

  /** `injectToken(line, token, rng)`: the token is spliced in among the
      line's segments at a drawn position in [0, segments]; a line with no
      segments takes the token alone, without a draw. */
  method InjectToken(line: string, token: string, rng: Rng) returns (r: string)
    requires rng.Valid()
    modifies rng
    ensures rng.Valid()
    ensures Segments(line) == [] ==> rng.draws == old(rng.draws) && r == Trim(token)
    ensures Segments(line) != [] ==> rng.draws == old(rng.draws) + 1
    ensures Segments(line) != [] ==>
      (var at := FromDraw(Draw(rng.seed, old(rng.draws)), 0, |Segments(line)|);
       0 <= at <= |Segments(line)| && r == Trim(Join(Splice(Segments(line), at, token), " ")))
    ensures r == Injected(line, token, rng.seed, old(rng.draws))
    ensures rng.draws == old(rng.draws) + InjectDraws(line)
  {
    var segments := Segments(line);
    var index := 0;
    if segments != [] {
      index := rng.Int(0, |segments|);
    }
    var spliced := Splice(segments, index, token);
    r := Trim(Join(spliced, " "));
  }

  /** Whether lines 129-134 of `generatePoem` fire: there are nutrients but
      none was used. */
  predicate MustForce(nutrientList: seq<string>, used: seq<string>) {
    nutrientList != [] && used == []
  }

  /** Lines 129-134 of `generatePoem` read off the stream from draw `at`:
      the lines, the used set, and the next unread draw. When they fire, a
      nutrient picked by draw `at` goes into the line picked by draw
      `at + 1`, at a place picked by draw `at + 2`, and becomes the used set. */
  function Forced(lines: seq<string>, nutrientList: seq<string>, used: seq<string>, seed: Uint32, at: nat)
    : (r: (seq<string>, seq<string>, nat))
    requires MustForce(nutrientList, used) ==> lines != []
  {
    if !MustForce(nutrientList, used) then (lines, used, at)
    else
      var forced := nutrientList[FromDraw(Draw(seed, at), 0, |nutrientList| - 1)];
      var target := FromDraw(Draw(seed, at + 1), 0, |lines| - 1);
      var injected := Injected(lines[target], forced, seed, at + 2);
      (lines[target := injected], [forced], at + 2 + InjectDraws(lines[target]))
  }

  /** What the forcing step guarantees: the line count is kept and at most
      one line changes; with nutrients the used set ends non-empty, and a
      forced nutrient is one of the list; without the step nothing changes
      and nothing is drawn. */
  lemma ForcedFacts(lines: seq<string>, nutrientList: seq<string>, used: seq<string>, seed: Uint32, at: nat)
    requires MustForce(nutrientList, used) ==> lines != []
    ensures var r := Forced(lines, nutrientList, used, seed, at);
      && |r.0| == |lines|
      && (forall i, j :: 0 <= i < j < |lines| && r.0[i] != lines[i] ==> r.0[j] == lines[j])
      && (!MustForce(nutrientList, used) ==> r == (lines, used, at))
      && (nutrientList != [] ==> r.1 != [])
      && (MustForce(nutrientList, used) ==> |r.1| == 1 && r.1[0] in nutrientList && at + 2 <= r.2 <= at + 3)
  {
    if MustForce(nutrientList, used) {
      var r := Forced(lines, nutrientList, used, seed, at);
      var target := FromDraw(Draw(seed, at + 1), 0, |lines| - 1);
      assert forall i :: 0 <= i < |lines| && i != target ==> r.0[i] == lines[i];
    }
  }

  /** Lines 129-134 of `generatePoem`: when there are nutrients but none was
      used, a picked nutrient is injected into a randomly chosen line and
      counted as used. */
  method ForceNutrient(lines: seq<string>, nutrientList: seq<string>, used: seq<string>, rng: Rng)
    returns (out: seq<string>, next: seq<string>)
    requires rng.Valid()
    requires nutrientList != [] ==> lines != []
    modifies rng
    ensures rng.Valid()
    ensures (out, next, rng.draws) == Forced(lines, nutrientList, used, rng.seed, old(rng.draws))
  {
    out, next := lines, used;
    if nutrientList != [] && used == [] {
      ghost var at := rng.draws;
      var forced;
      out, forced := InjectNutrient(lines, nutrientList, rng);
      next := SetAdd(used, forced);
      assert next == [forced];
    }
  }

  /** The firing branch of the forcing step: a nutrient picked by the first
      draw goes into the line picked by the second. */
  method InjectNutrient(lines: seq<string>, nutrientList: seq<string>, rng: Rng) returns (out: seq<string>, forced: string)
    requires rng.Valid() && nutrientList != [] && lines != []
    modifies rng
    ensures rng.Valid()
    ensures forced == nutrientList[FromDraw(Draw(rng.seed, old(rng.draws)), 0, |nutrientList| - 1)]
    ensures var target := FromDraw(Draw(rng.seed, old(rng.draws) + 1), 0, |lines| - 1);
      && 0 <= target < |lines|
      && out == lines[target := Injected(lines[target], forced, rng.seed, old(rng.draws) + 2)]
      && rng.draws == old(rng.draws) + 2 + InjectDraws(lines[target])
  {
    ghost var at := rng.draws;
    forced := PickWord(nutrientList, rng);
    var target := rng.Int(0, |lines| - 1);
    assert rng.draws == at + 2;
    ghost var spent := InjectDraws(lines[target]);
    var injected := InjectToken(lines[target], forced, rng);
    assert rng.draws == at + 2 + spent;
    out := lines[target := injected];
  }

  /** The pool the ending is picked from. */
  function EndingPool(genome: Genome): (pool: seq<string>)
    ensures pool == AssertiveEndings || pool == AfterglowEndings
    ensures pool == AssertiveEndings <==> genome.assertiveness >= genome.afterglow
  {
    if genome.assertiveness >= genome.afterglow then AssertiveEndings else AfterglowEndings
  }

  /** No word ends poems of both kinds. */
  lemma EndingPoolsDisjoint(e: string)
    ensures !(e in AssertiveEndings && e in AfterglowEndings)
  {
  }

  /** Lines 136-144 of `generatePoem`: a non-empty poem gets an ending
      picked from the assertive pool exactly when assertiveness is at least
      afterglow, appended (and trimmed) to its last line only. */
  method AppendEnding(lines: seq<string>, genome: Genome, rng: Rng) returns (out: seq<string>, ending: string)
    requires rng.Valid()
    modifies rng
    ensures rng.Valid() && rng.draws >= old(rng.draws)
    ensures lines == [] ==> out == [] && rng.draws == old(rng.draws)
    ensures lines != [] ==>
      && |out| == |lines|
      && out[..|lines| - 1] == lines[..|lines| - 1]
      && out[|lines| - 1] == Trim(lines[|lines| - 1] + " " + ending)
      && ending in EndingPool(genome)
      && (ending in AssertiveEndings <==> genome.assertiveness >= genome.afterglow)
  {
    out, ending := lines, "";
    if lines != [] {
      ending := PickWord(EndingPool(genome), rng);
      EndingPoolsDisjoint(ending);
      var last := |lines| - 1;
      out := lines[last := Trim(lines[last] + " " + ending)];
    }
  }

  /** What `generatePoem` returns: the poem, the nutrients it used (in the
      order first used) and its statistics. */
  datatype Poem = Poem(text: string, usedNutrients: seq<string>, stats: PoemStats)

  /** `generatePoem({ genome, nutrients, poemStyleConfig, rng })`. The
      ghost results expose the stages: `bases`, `tokens` and
      `conjunctionLines` as `ComposeLines` gives them, `composed` the joined
      lines, `forced` the lines after the forcing step, which starts at draw
      `forceAt`, `lines` the lines the poem is joined from and `ending` the
      ending its last line got. The source
      fails (it splits `undefined`) when a genome with no lines meets a
      non-empty nutrient list. */
  method GeneratePoem(genome: Genome, nutrients: seq<string>, styleInput: StyleInput, rng: Rng)
    returns (poem: Poem, ghost bases: seq<seq<string>>, ghost tokens: seq<seq<string>>,
             ghost conjunctionLines: seq<nat>, ghost composed: seq<string>, ghost forced: seq<string>,
             ghost forceAt: nat, ghost lines: seq<string>, ghost ending: string)
    requires rng.Valid()
    requires genome.lines >= 1 || NormalizeWords(nutrients) == []
    modifies rng
    ensures rng.Valid() && rng.draws >= old(rng.draws)
    // the line loop: one composed line per genome line, a conjunction on at most one line, never line 0
    ensures |composed| == MaxInt(0, genome.lines)
    ensures AllComposed(composed, bases, tokens, conjunctionLines, genome.lineLen,
                        UniqueWords(ConcreteBase + NormalizeWords(nutrients)) +
                        UniqueWords(AbstractBase + NormalizeWords(nutrients)) + NormalizeWords(nutrients))
    ensures |conjunctionLines| <= MaxConjunctionsPerPoem
    ensures forall i :: 0 <= i < |conjunctionLines| ==> 0 < conjunctionLines[i] < |composed|
    // the forcing step, and the used nutrients: the ones the tokens matched, or the forced one
    ensures old(rng.draws) <= forceAt
    ensures var f := Forced(composed, NormalizeWords(nutrients), UsedBy(tokens, NormalizeWords(nutrients)),
                            rng.seed, forceAt);
      forced == f.0 && poem.usedNutrients == f.1
    // the ending, on the last line only
    ensures |lines| == |composed| == |forced|
    ensures forced != [] ==> lines[..|forced| - 1] == forced[..|forced| - 1]
    ensures forced != [] ==> ending in EndingPool(genome) && lines[|forced| - 1] == Trim(forced[|forced| - 1] + " " + ending)
    ensures Distinct(poem.usedNutrients)
    ensures forall w :: w in poem.usedNutrients ==> w in NormalizeWords(nutrients)
    ensures NormalizeWords(nutrients) != [] ==> poem.usedNutrients != []
    ensures poem.text == Join(lines, "\n")
    ensures poem.stats == PoemStatsOf(poem.text)
  {
    var nutrientList := NormalizeWords(nutrients);
    var concretePool := UniqueWords(ConcreteBase + nutrientList);
    var abstractPool := UniqueWords(AbstractBase + nutrientList);
    var style := NormalizePoemStyleConfig(styleInput);
    var linesOut, used;
    linesOut, used, bases, tokens, conjunctionLines := ComposeLines(genome, nutrientList, concretePool, abstractPool,
                                                                    style, rng);
    composed := linesOut;
    forceAt := rng.draws;
    var withNutrient, usedNutrients := ForceNutrient(linesOut, nutrientList, used, rng);
    forced := withNutrient;
    UsedNutrientsFacts(tokens, composed, nutrientList, rng.seed, forceAt);
    ForcedFacts(composed, nutrientList, used, rng.seed, forceAt);
    var ended, picked := AppendEnding(withNutrient, genome, rng);
    ending := picked;
    lines := ended;
    var text := Join(ended, "\n");
    var stats := BuildPoemStats(text);
    poem := Poem(text, usedNutrients, stats);
  }

  /** What the generator promises about the used nutrients: distinct words
      of the list, non-empty when the list is, and, unless one was forced,
      exactly the nutrients some token of the poem's lines matched. */
  lemma UsedNutrientsFacts(tokens: seq<seq<string>>, lines: seq<string>, nutrientList: seq<string>, seed: Uint32, at: nat)
    requires MustForce(nutrientList, UsedBy(tokens, nutrientList)) ==> lines != []
    ensures var used := Forced(lines, nutrientList, UsedBy(tokens, nutrientList), seed, at).1;
      && Distinct(used)
      && (forall w :: w in used ==> w in nutrientList)
      && (nutrientList != [] ==> used != [])
      && (!MustForce(nutrientList, UsedBy(tokens, nutrientList)) ==>
            forall w :: w in used <==>
              exists i, k :: 0 <= i < |tokens| && 0 <= k < |tokens[i]| && Matched(tokens[i][k], nutrientList) == Some(w))
  {
    UsedByContents(tokens, nutrientList);
    ForcedFacts(lines, nutrientList, UsedBy(tokens, nutrientList), seed, at);
  }

  // ------------------------------------------------------------ statistics

  /** `buildPoemStats(poem)`'s result. */
  datatype PoemStats = PoemStats(
    lineCount: nat,
    charCount: nat,
    averageLineLength: real,
    maxLineLength: nat,
    tokenCount: nat,
    uniqueTokenRatio: real,
    longestRepeatRun: nat)

  /** The length of the run of equal tokens that ends at index i. */
  function RunAt(ts: seq<string>, i: nat): (r: nat)
    requires i < |ts|
    ensures 1 <= r <= i + 1
  {
    if i == 0 then 1 else if ts[i] == ts[i - 1] then RunAt(ts, i - 1) + 1 else 1
  }

  /** The longest run ending before index n. */
  function LongestBefore(ts: seq<string>, n: nat): (r: nat)
    requires n <= |ts|
    ensures n == 0 <==> r == 0
    ensures r <= n
  {
    if n == 0 then 0 else MaxInt(LongestBefore(ts, n - 1), RunAt(ts, n - 1))
  }

  /** The length of the longest run of equal consecutive tokens. */
  function LongestRun(ts: seq<string>): nat {
    LongestBefore(ts, |ts|)
  }

  /** ts[a..i+1] is a block of equal tokens. */
  ghost predicate Block(ts: seq<string>, a: nat, i: nat)
    requires a <= i < |ts|
  {
    forall j :: a <= j <= i ==> ts[j] == ts[i]
  }

  /** The run ending at i is a block of equal tokens. */
  lemma {:induction false} RunAtIsBlock(ts: seq<string>, i: nat)
    requires i < |ts|
    ensures Block(ts, i + 1 - RunAt(ts, i), i)
  {
    if i > 0 && ts[i] == ts[i - 1] {
      RunAtIsBlock(ts, i - 1);
    }
  }

  /** A block of equal tokens ending at i is no longer than the run there. */
  lemma {:induction false} BlockWithinRun(ts: seq<string>, a: nat, i: nat)
    requires a <= i < |ts|
    requires Block(ts, a, i)
    ensures i - a + 1 <= RunAt(ts, i)
  {
    if a < i {
      BlockWithinRun(ts, a, i - 1);
    }
  }

  lemma {:induction false} LongestBeforeBounds(ts: seq<string>, n: nat, i: nat)
    requires i < n <= |ts|
    ensures RunAt(ts, i) <= LongestBefore(ts, n)
  {
    if i < n - 1 {
      LongestBeforeBounds(ts, n - 1, i);
    }
  }

  lemma {:induction false} LongestBeforeAttained(ts: seq<string>, n: nat)
    requires 0 < n <= |ts|
    ensures exists i :: 0 <= i < n && RunAt(ts, i) == LongestBefore(ts, n)
  {
    if n > 1 && LongestBefore(ts, n - 1) >= RunAt(ts, n - 1) {
      LongestBeforeAttained(ts, n - 1);
    } else {
      assert RunAt(ts, n - 1) == LongestBefore(ts, n);
    }
  }

  /** `LongestRun` is the longest block of equal consecutive tokens: every
      such block is at most that long, and one is exactly that long. */
  lemma LongestRunIsLongestBlock(ts: seq<string>)
    ensures forall a: nat, i: nat :: a <= i < |ts| && Block(ts, a, i) ==> i - a + 1 <= LongestRun(ts)
    ensures ts != [] ==>
      (exists a: nat, i: nat :: a <= i < |ts| && Block(ts, a, i) && i - a + 1 == LongestRun(ts))
  {
    forall a: nat, i: nat | a <= i < |ts| && Block(ts, a, i)
      ensures i - a + 1 <= LongestRun(ts)
    {
      BlockWithinRun(ts, a, i);
      LongestBeforeBounds(ts, |ts|, i);
    }
    if ts != [] {
      LongestBeforeAttained(ts, |ts|);
      var i :| 0 <= i < |ts| && RunAt(ts, i) == LongestBefore(ts, |ts|);
      RunAtIsBlock(ts, i);
      var a: nat := i + 1 - RunAt(ts, i);
      assert Block(ts, a, i) && i - a + 1 == LongestRun(ts);
    }
  }

  /** `countLongestRepeat(tokens)`. */
  method CountLongestRepeat(tokens: seq<string>) returns (r: nat)
    ensures r == LongestRun(tokens)
    ensures tokens == [] <==> r == 0
    ensures r <= |tokens|
  {
    if tokens == [] {
      return 0;
    }
    var longest := 1;
    var current := 1;
    for i := 1 to |tokens|
      invariant current == RunAt(tokens, i - 1)
      invariant longest == LongestBefore(tokens, i)
    {
      if tokens[i] == tokens[i - 1] {
        current := current + 1;
        longest := MaxInt(longest, current);
      } else {
        current := 1;
      }
    }
    r := longest;
  }

  /** `poem.split("\n").filter(Boolean)`. */
  function PoemLines(poem: string): seq<string> {
    NonEmpty(Split(poem, '\n'))
  }

  /** The length of each line, as numbers. */
  function Lengths(lines: seq<string>): (r: seq<real>)
    ensures |r| == |lines|
    ensures forall i :: 0 <= i < |lines| ==> r[i] == |lines[i]| as real
  {
    if lines == [] then [] else [|lines[0]| as real] + Lengths(lines[1..])
  }

  /** `Math.max(...lengths)`, 0 for no lines. */
  function MaxLength(lines: seq<string>): (r: nat)
    ensures forall i :: 0 <= i < |lines| ==> |lines[i]| <= r
    ensures lines != [] ==> exists i :: 0 <= i < |lines| && |lines[i]| == r
    ensures lines == [] ==> r == 0
  {
    if lines == [] then 0
    else
      var rest := MaxLength(lines[1..]);
      assert forall i :: 1 <= i < |lines| ==> lines[i] == lines[1..][i - 1];
      MaxInt(|lines[0]|, rest)
  }

  /** The keys of the white-space separated tokens. */
  function TokenKeys(poem: string): (r: seq<string>)
  {
    KeysOf(Words(poem))
  }

  function KeysOf(tokens: seq<string>): (r: seq<string>)
    ensures |r| == |tokens|
    ensures forall i :: 0 <= i < |tokens| ==> r[i] == ToKey(tokens[i])
  {
    if tokens == [] then [] else [ToKey(tokens[0])] + KeysOf(tokens[1..])
  }

  /** `new Set(keys).size / keys.length`, rounded; 1 for no tokens. */
  function UniqueRatio(keys: seq<string>): (r: real)
    ensures keys == [] ==> r == 1.0
    ensures 0.0 <= r <= 1.0
  {
    if keys == [] then 1.0
    else
      var distinct := Dedupe(keys);
      assert keys[0] in distinct;
      var ratio := Ratio(|distinct|, |keys|);
      UnitRounds(ratio);
      Round3(ratio)
  }

  /** a / b for 0 < a <= b lies in (0, 1]. */
  function Ratio(a: nat, b: nat): (r: real)
    requires 0 < a <= b
    ensures 0.0 < r <= 1.0
  {
    a as real / b as real
  }

  /** The statistics `buildPoemStats` computes for a poem text. */
  function PoemStatsOf(poem: string): (s: PoemStats)
    ensures s.lineCount == |PoemLines(poem)|
    ensures s.charCount == |poem| - CountChar(poem, '\n')
    ensures s.tokenCount == |Words(poem)|
    ensures s.tokenCount == 0 ==> s.uniqueTokenRatio == 1.0 && s.longestRepeatRun == 0
    ensures s.tokenCount > 0 ==> 1 <= s.longestRepeatRun <= s.tokenCount
    ensures 0.0 <= s.uniqueTokenRatio <= 1.0
    ensures s.lineCount == 0 ==> s.maxLineLength == 0 && s.averageLineLength == 0.0
  {
    var lines := PoemLines(poem);
    var keys := TokenKeys(poem);
    ZeroRounds();
    PoemStats(
      |lines|,
      |DropChar(poem, '\n')|,
      Round3(Average(Lengths(lines))),
      MaxLength(lines),
      |keys|,
      UniqueRatio(keys),
      LongestRun(keys))
  }

  /** `buildPoemStats(poem)`. */
  method BuildPoemStats(poem: string) returns (stats: PoemStats)
    ensures stats == PoemStatsOf(poem)
  {
    var lines := PoemLines(poem);
    var keys := TokenKeys(poem);
    var longest := CountLongestRepeat(keys);
    stats := PoemStats(
      |lines|,
      |DropChar(poem, '\n')|,
      Round3(Average(Lengths(lines))),
      MaxLength(lines),
      |keys|,
      UniqueRatio(keys),
      longest);
  }
}
