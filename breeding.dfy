// Breeding the next generation: choosing parents from the ranked records,
// sizing the next population, and building each child from two parents.

module Breeding {
  import opened Wrappers
  import opened Numeric
  import opened Random
  import opened Genomes
  import opened Configs
  import opened Generations

  // ------------------------------------------------------------ sampling

  /** `bucket.splice(i, 1)`: the sequence without its i-th element. */
  function RemoveAt<T>(xs: seq<T>, i: nat): (r: seq<T>)
    requires i < |xs|
    ensures |r| == |xs| - 1
  {
    seq(|xs| - 1, k requires 0 <= k < |xs| - 1 => if k < i then xs[k] else xs[k + 1])
  }

  /** Taking an element out leaves the multiset without one copy of it. */
  lemma RemoveAtMultiset<T>(xs: seq<T>, i: nat)
    requires i < |xs|
    ensures multiset(RemoveAt(xs, i)) + multiset{xs[i]} == multiset(xs)
  {
    assert xs == xs[..i] + [xs[i]] + xs[i + 1..];
    assert RemoveAt(xs, i) == xs[..i] + xs[i + 1..];
  }

  /** n draws without replacement from `bucket`, the first one being draw
      number `at` of the generator seeded with `seed`: each draw moves the
      element at `floor(u * |bucket|)` from the bucket to the end of the
      picks. The result is the picks and what is left in the bucket. */
  function Sampled<T>(bucket: seq<T>, picks: seq<T>, seed: Uint32, at: nat, n: nat): (r: (seq<T>, seq<T>))
    requires n <= |bucket|
    ensures |r.0| == |picks| + n && |r.1| == |bucket| - n
    decreases n
  {
    if n == 0 then (picks, bucket)
    else
      var i := FromDraw(Draw(seed, at), 0, |bucket| - 1);
      Sampled(RemoveAt(bucket, i), picks + [bucket[i]], seed, at + 1, n - 1)
  }

  /** The picks and the leftover bucket together hold what the picks and
      the bucket held: nothing is picked twice and nothing is invented. */
  lemma {:induction false} SampledPartitions<T>(bucket: seq<T>, picks: seq<T>, seed: Uint32, at: nat, n: nat)
    requires n <= |bucket|
    ensures var r := Sampled(bucket, picks, seed, at, n);
      multiset(r.0) + multiset(r.1) == multiset(picks) + multiset(bucket)
    decreases n
  {
    if n > 0 {
      var i := FromDraw(Draw(seed, at), 0, |bucket| - 1);
      SampledPartitions(RemoveAt(bucket, i), picks + [bucket[i]], seed, at + 1, n - 1);
      RemoveAtMultiset(bucket, i);
    }
  }

  /** Sampling is without replacement: the picks are a sub-multiset of the
      list, and sampling the whole list yields a permutation of it. */
  lemma SampleWithinList<T>(list: seq<T>, seed: Uint32, at: nat, n: nat)
    requires n <= |list|
    ensures multiset(Sampled(list, [], seed, at, n).0) <= multiset(list)
    ensures n == |list| ==> multiset(Sampled(list, [], seed, at, n).0) == multiset(list)
  {
    SampledPartitions(list, [], seed, at, n);
    var r := Sampled(list, [], seed, at, n);
    assert multiset(r.0) + multiset(r.1) == multiset(list);
    if n == |list| {
      assert r.1 == [];
    }
  }

  /** `Math.min(count, list.length)`, or 0 when the source returns early. */
  function SampleTotal(count: int, len: nat): (k: nat)
    ensures k <= len
    ensures count <= 0 || len == 0 ==> k == 0
    ensures count >= len ==> k == len
    ensures 0 <= count <= len ==> k == count
  {
    if count <= 0 || len == 0 then 0 else MinInt(count, len)
  }

  /** `sampleWithoutReplacement(list, count, rng)`. */
  method SampleWithoutReplacement<T>(list: seq<T>, count: int, rng: Rng) returns (picks: seq<T>)
    requires rng.Valid()
    modifies rng
    ensures rng.Valid() && rng.draws == old(rng.draws) + SampleTotal(count, |list|)
    ensures picks == Sampled(list, [], rng.seed, old(rng.draws), SampleTotal(count, |list|)).0
  {
    if count <= 0 || |list| == 0 {
      return [];
    }
    var bucket := list;
    picks := [];
    var total := MinInt(count, |bucket|);
    ghost var start := rng.draws;
    for i := 0 to total
      invariant rng.Valid() && rng.draws == start + i
      invariant |bucket| == |list| - i && |picks| == i
      invariant Sampled(list, [], rng.seed, start, total) == Sampled(bucket, picks, rng.seed, start + i, total - i)
    {
      var index := rng.Int(0, |bucket| - 1);
      picks := picks + [bucket[index]];
      bucket := RemoveAt(bucket, index);
    }
  }

  // ------------------------------------------------------------ dedupe

  function IdSet(rs: seq<Record>): set<string> {
    set r | r in rs :: r.individualId
  }

  predicate DistinctIds(rs: seq<Record>) {
    forall i, j :: 0 <= i < j < |rs| ==> rs[i].individualId != rs[j].individualId
  }

  /** No record before position k has the id of record k. */
  predicate FirstOfId(rs: seq<Record>, k: nat)
    requires k < |rs|
  {
    forall j :: 0 <= j < k ==> rs[j].individualId != rs[k].individualId
  }

  lemma IdSetSnoc(rs: seq<Record>, x: Record)
    ensures IdSet(rs + [x]) == IdSet(rs) + {x.individualId}
  {
    assert forall r :: r in rs + [x] <==> r in rs || r == x;
  }

  /** The records in order, each kept only if no earlier one has its id. */
  function DedupeById(rs: seq<Record>): seq<Record> {
    if rs == [] then []
    else
      var d := DedupeById(rs[..|rs| - 1]);
      var x := rs[|rs| - 1];
      if x.individualId in IdSet(d) then d else d + [x]
  }

  /** The dedupe keeps the first record of every id and nothing else: its
      ids are distinct, its records come from the input, it has every id of
      the input, and every first occurrence is in it. */
  lemma DedupeFacts(rs: seq<Record>)
    ensures DistinctIds(DedupeById(rs))
    ensures forall x :: x in DedupeById(rs) ==> x in rs
    ensures IdSet(DedupeById(rs)) == IdSet(rs)
    ensures |DedupeById(rs)| <= |rs|
    ensures forall k :: 0 <= k < |rs| && FirstOfId(rs, k) ==> rs[k] in DedupeById(rs)
  {
    DedupeBasics(rs);
    DedupeKeepsFirst(rs);
  }

  /** The first four facts of `DedupeFacts`, by induction on the input. */
  lemma {:induction false} DedupeBasics(rs: seq<Record>)
    ensures DistinctIds(DedupeById(rs))
    ensures forall x :: x in DedupeById(rs) ==> x in rs
    ensures IdSet(DedupeById(rs)) == IdSet(rs)
    ensures |DedupeById(rs)| <= |rs|
  {
    if rs != [] {
      var init := rs[..|rs| - 1];
      var x := rs[|rs| - 1];
      DedupeBasics(init);
      var d := DedupeById(init);
      IdSetSnoc(init, x);
      assert rs == init + [x];
      if x.individualId !in IdSet(d) {
        IdSetSnoc(d, x);
        forall i | 0 <= i < |d| ensures d[i].individualId != x.individualId {
          assert d[i] in d;
        }
      }
    }
  }

  /** Every first occurrence of an id survives the dedupe. */
  lemma DedupeKeepsFirst(rs: seq<Record>)
    ensures forall k :: 0 <= k < |rs| && FirstOfId(rs, k) ==> rs[k] in DedupeById(rs)
  {
    forall k | 0 <= k < |rs| && FirstOfId(rs, k) ensures rs[k] in DedupeById(rs) {
      DedupeKeepsFirstAt(rs, k);
    }
  }

  /** The first occurrence at index k survives the dedupe. */
  lemma {:induction false} DedupeKeepsFirstAt(rs: seq<Record>, k: nat)
    requires k < |rs| && FirstOfId(rs, k)
    ensures rs[k] in DedupeById(rs)
  {
    var init := rs[..|rs| - 1];
    var x := rs[|rs| - 1];
    var d := DedupeById(init);
    assert DedupeById(rs) == if x.individualId in IdSet(d) then d else d + [x];
    if k == |init| {
      DedupeBasics(init);
      forall r | r in init ensures r.individualId != x.individualId {
        var j :| 0 <= j < |init| && init[j] == r;
        assert rs[j] == r;
      }
    } else {
      assert FirstOfId(init, k) by {
        forall j | 0 <= j < k ensures init[j].individualId != init[k].individualId {
          assert init[j] == rs[j];
        }
      }
      DedupeKeepsFirstAt(init, k);
    }
  }

  /** Records with distinct ids pass through unchanged. */
  lemma {:induction false} DedupeOfDistinct(rs: seq<Record>)
    requires DistinctIds(rs)
    ensures DedupeById(rs) == rs
  {
    if rs != [] {
      var init := rs[..|rs| - 1];
      var x := rs[|rs| - 1];
      DedupeOfDistinct(init);
      assert rs == init + [x];
    }
  }

  /** Appending records never disturbs what the dedupe of the front kept. */
  lemma {:induction false} DedupePrefix(xs: seq<Record>, ys: seq<Record>)
    ensures |DedupeById(xs)| <= |DedupeById(xs + ys)|
    ensures DedupeById(xs + ys)[..|DedupeById(xs)|] == DedupeById(xs)
    decreases |ys|
  {
    if ys == [] {
      assert xs + ys == xs;
    } else {
      var init := ys[..|ys| - 1];
      DedupePrefix(xs, init);
      assert (xs + ys)[..|xs + ys| - 1] == xs + init;
    }
  }

  /** `dedupeByIndividualId(records)`. */
  method DedupeByIndividualId(records: seq<Record>) returns (deduped: seq<Record>)
    ensures deduped == DedupeById(records)
  {
    var seen: set<string> := {};
    deduped := [];
    for i := 0 to |records|
      invariant deduped == DedupeById(records[..i]) && seen == IdSet(deduped)
    {
      var record := records[i];
      assert records[..i + 1][..i] == records[..i];
      if record.individualId in seen {
        continue;
      }
      IdSetSnoc(deduped, record);
      seen := seen + {record.individualId};
      deduped := deduped + [record];
    }
    assert records[..|records|] == records;
  }

  // ------------------------------------------------------------ parents

  /** The living records, or all of them when none is alive. */
  function ParentSource(records: seq<Record>): (s: seq<Record>)
    ensures |s| <= |records|
    ensures forall r :: r in s ==> r in records
    ensures s == [] <==> records == []
  {
    var living := Living(records);
    if living != [] then living else records
  }

  /** `clamp(Math.round(n * eliteRatio), Math.min(minElite, n), n)`. */
  function EliteCount(n: nat, c: EvolutionConfig): int {
    JsClamp(MathRound(n as real * c.eliteRatio), MinInt(c.minElite, n), n)
  }

  /** `clamp(Math.round(n * diversityRatio), minimum, available)` where the
      available slots are those the elite leaves. */
  function DiversityCount(n: nat, eliteCount: int, c: EvolutionConfig): int {
    var available := MaxInt(0, n - eliteCount);
    JsClamp(MathRound(n as real * c.diversityRatio), if available > 0 then c.minDiversity else 0, available)
  }

  /** A normalised config takes at least one and at most all records as
      elite, and at least `minElite` of them when there are that many; with
      no record left over there is no diversity sample, otherwise at least
      `minDiversity` are asked for. */
  lemma QuotaBounds(n: nat, c: EvolutionConfig)
    requires c.Valid() && n >= 1
    ensures 1 <= EliteCount(n, c) <= n
    ensures MinInt(c.minElite, n) <= EliteCount(n, c)
    ensures EliteCount(n, c) == n ==> DiversityCount(n, EliteCount(n, c), c) == 0
    ensures EliteCount(n, c) < n ==> c.minDiversity <= DiversityCount(n, EliteCount(n, c), c)
    ensures 0 <= DiversityCount(n, EliteCount(n, c), c)
  {
  }

  /** Where the diversity sample is drawn from: the records after the
      elite, or all of them when the elite took everything. */
  function Candidates(source: seq<Record>, c: EvolutionConfig): (r: seq<Record>)
    requires c.Valid() && source != []
    ensures r != []
  {
    QuotaBounds(|source|, c);
    var e := EliteCount(|source|, c);
    if source[e..] != [] then source[e..] else source
  }

  /** How many records the diversity sample takes. */
  function DiversityDraws(source: seq<Record>, c: EvolutionConfig): (k: nat)
    requires c.Valid() && source != []
    ensures k <= |source| - EliteCount(|source|, c)
  {
    QuotaBounds(|source|, c);
    var e := EliteCount(|source|, c);
    SampleTotal(DiversityCount(|source|, e, c), |Candidates(source, c)|)
  }

  /** `dedupeByIndividualId([...elite, ...diversity])`, the diversity sample
      starting at draw `at`. */
  function InitialPool(source: seq<Record>, c: EvolutionConfig, seed: Uint32, at: nat): seq<Record>
    requires c.Valid() && source != []
  {
    QuotaBounds(|source|, c);
    var e := EliteCount(|source|, c);
    DedupeById(source[..e] + Sampled(Candidates(source, c), [], seed, at, DiversityDraws(source, c)).0)
  }

  /** The retry loop: while the pool has fewer than two records and fewer
      than the source, pick a record of the source (draw number `at`) and
      add it if its id is new. At most `fuel` picks are made; the second
      component is the number of the next unused draw. */
  function Retry(pool: seq<Record>, source: seq<Record>, seed: Uint32, at: nat, fuel: nat): (r: (seq<Record>, nat))
    requires source != []
    ensures at <= r.1 <= at + fuel
    decreases fuel
  {
    if |pool| >= 2 || |pool| >= |source| || fuel == 0 then (pool, at)
    else
      var candidate := source[FromDraw(Draw(seed, at), 0, |source| - 1)];
      var next := if candidate.individualId in IdSet(pool) then pool else pool + [candidate];
      Retry(next, source, seed, at + 1, fuel - 1)
  }

  /** What the retries keep: distinct ids, records of the source, the pool
      as a prefix, at most as many records as the source; and unless every
      pick was spent, the loop ended because it reached two records or the
      size of the source. */
  lemma {:induction false} RetryFacts(pool: seq<Record>, source: seq<Record>, seed: Uint32, at: nat, fuel: nat)
    requires source != [] && DistinctIds(pool) && |pool| <= |source|
    requires forall x :: x in pool ==> x in source
    ensures DistinctIds(Retry(pool, source, seed, at, fuel).0)
    ensures |pool| <= |Retry(pool, source, seed, at, fuel).0| <= |source|
    ensures Retry(pool, source, seed, at, fuel).0[..|pool|] == pool
    ensures forall x :: x in Retry(pool, source, seed, at, fuel).0 ==> x in source
    ensures Retry(pool, source, seed, at, fuel).1 < at + fuel ==> |Retry(pool, source, seed, at, fuel).0| >= MinInt(2, |source|)
    decreases fuel
  {
    if !(|pool| >= 2 || |pool| >= |source| || fuel == 0) {
      var candidate := source[FromDraw(Draw(seed, at), 0, |source| - 1)];
      var next := if candidate.individualId in IdSet(pool) then pool else pool + [candidate];
      if candidate.individualId !in IdSet(pool) {
        AddNewId(pool, candidate);
      }
      RetryFacts(next, source, seed, at + 1, fuel - 1);
      var r := Retry(next, source, seed, at + 1, fuel - 1);
      assert Retry(pool, source, seed, at, fuel) == r;
      assert r.0[..|pool|] == r.0[..|next|][..|pool|];
    }
  }

  /** A record whose id is new keeps the ids distinct. */
  lemma AddNewId(pool: seq<Record>, x: Record)
    requires DistinctIds(pool) && x.individualId !in IdSet(pool)
    ensures DistinctIds(pool + [x])
  {
    forall i | 0 <= i < |pool| ensures pool[i].individualId != x.individualId {
      assert pool[i] in pool;
    }
  }

  /** The parent pool drawn from a non-empty `source`, the first draw
      being number `at`: the pool and the number of the next unused draw,
      with at most `fuel` retries. */
  function SelectFrom(source: seq<Record>, c: EvolutionConfig, seed: Uint32, at: nat, fuel: nat): (r: (seq<Record>, nat))
    requires c.Valid() && source != []
  {
    var total := DiversityDraws(source, c);
    var pool := InitialPool(source, c, seed, at);
    if |pool| >= 2 || |source| <= 1 then (pool, at + total)
    else Retry(pool, source, seed, at + total, fuel)
  }

  /** `selectParents(records, config, rng)` as a function of the draws. */
  function SelectedParents(records: seq<Record>, c: EvolutionConfig, seed: Uint32, at: nat, fuel: nat): (r: (seq<Record>, nat))
    requires c.Valid()
  {
    var source := ParentSource(records);
    if source == [] then ([], at) else SelectFrom(source, c, seed, at, fuel)
  }

  /** The initial pool: distinct ids, records of the source, no more than
      the source, and the deduplicated elite in front. */
  lemma InitialPoolFacts(source: seq<Record>, c: EvolutionConfig, seed: Uint32, at: nat)
    requires c.Valid() && source != []
    ensures var pool := InitialPool(source, c, seed, at);
      var elite := source[..EliteCount(|source|, c)];
      && DistinctIds(pool) && 1 <= |pool| <= |source|
      && (forall x :: x in pool ==> x in source)
      && |DedupeById(elite)| <= |pool| && pool[..|DedupeById(elite)|] == DedupeById(elite)
  {
    QuotaBounds(|source|, c);
    var e := EliteCount(|source|, c);
    var elite := source[..e];
    var candidates := Candidates(source, c);
    var sample := Sampled(candidates, [], seed, at, DiversityDraws(source, c)).0;
    DedupeFacts(elite + sample);
    DedupePrefix(elite, sample);
    SampleWithinList(candidates, seed, at, DiversityDraws(source, c));
    CandidatesWithin(source, c);
    forall x | x in sample ensures x in source {
      assert x in multiset(candidates);
    }
    DedupeFacts(elite);
    assert source[0] in elite && FirstOfId(elite, 0);
  }

  /** What a parent pool `r` drawn from `source` guarantees: distinct ids,
      records of the source, never larger than the source and never empty,
      `elite` in front, and, unless the draws ran up to `limit`, two
      records or all of the source when the source is smaller. */
  ghost predicate PoolGuarantees(r: (seq<Record>, nat), elite: seq<Record>, source: seq<Record>, limit: nat) {
    && DistinctIds(r.0) && 1 <= |r.0| <= |source|
    && (forall x :: x in r.0 ==> x in source)
    && |elite| <= |r.0| && r.0[..|elite|] == elite
    && (r.1 < limit ==> |r.0| >= MinInt(2, |source|))
  }

  /** The parent pool has distinct ids and only records of the source;
      it is never larger than the source and never empty; the elite,
      deduplicated, comes first; and unless every retry was spent it holds
      two records, or all of the source when the source is smaller. */
  lemma SelectFromFacts(source: seq<Record>, c: EvolutionConfig, seed: Uint32, at: nat, fuel: nat)
    requires c.Valid() && source != []
    ensures PoolGuarantees(SelectFrom(source, c, seed, at, fuel), DedupeById(source[..EliteCount(|source|, c)]),
                           source, at + DiversityDraws(source, c) + fuel)
  {
    var pool := InitialPool(source, c, seed, at);
    if |pool| >= 2 || |source| <= 1 {
      InitialPoolGuarantees(source, c, seed, at, at + DiversityDraws(source, c) + fuel);
    } else {
      RetriedPoolGuarantees(source, c, seed, at, fuel);
    }
  }

  /** An initial pool of two or more records, or drawn from a source of
      one, is the parent pool. */
  lemma InitialPoolGuarantees(source: seq<Record>, c: EvolutionConfig, seed: Uint32, at: nat, limit: nat)
    requires c.Valid() && source != []
    requires |InitialPool(source, c, seed, at)| >= 2 || |source| <= 1
    ensures PoolGuarantees((InitialPool(source, c, seed, at), at + DiversityDraws(source, c)),
                           DedupeById(source[..EliteCount(|source|, c)]), source, limit)
  {
    QuotaBounds(|source|, c);
    InitialPoolFacts(source, c, seed, at);
  }

  /** A smaller initial pool goes through the retries. */
  lemma RetriedPoolGuarantees(source: seq<Record>, c: EvolutionConfig, seed: Uint32, at: nat, fuel: nat)
    requires c.Valid() && source != []
    ensures PoolGuarantees(Retry(InitialPool(source, c, seed, at), source, seed, at + DiversityDraws(source, c), fuel),
                           DedupeById(source[..EliteCount(|source|, c)]), source, at + DiversityDraws(source, c) + fuel)
  {
    QuotaBounds(|source|, c);
    InitialPoolFacts(source, c, seed, at);
    RetriedFacts(InitialPool(source, c, seed, at), DedupeById(source[..EliteCount(|source|, c)]), source, seed,
                 at + DiversityDraws(source, c), fuel);
  }

  /** The retries keep what the initial pool guarantees, its head included. */
  lemma RetriedFacts(pool: seq<Record>, elite: seq<Record>, source: seq<Record>, seed: Uint32, start: nat, fuel: nat)
    requires source != [] && DistinctIds(pool) && 1 <= |pool| <= |source|
    requires forall x :: x in pool ==> x in source
    requires |elite| <= |pool| && pool[..|elite|] == elite
    ensures PoolGuarantees(Retry(pool, source, seed, start, fuel), elite, source, start + fuel)
  {
    RetryFacts(pool, source, seed, start, fuel);
    var r := Retry(pool, source, seed, start, fuel);
    assert r.0[..|elite|] == r.0[..|pool|][..|elite|];
  }

  /** When the source's ids are distinct, the whole elite heads the pool. */
  lemma SelectFromKeepsElite(source: seq<Record>, c: EvolutionConfig, seed: Uint32, at: nat, fuel: nat)
    requires c.Valid() && source != [] && DistinctIds(source)
    ensures var r := SelectFrom(source, c, seed, at, fuel);
      var elite := source[..EliteCount(|source|, c)];
      |elite| <= |r.0| && r.0[..|elite|] == elite
  {
    QuotaBounds(|source|, c);
    var elite := source[..EliteCount(|source|, c)];
    SelectFromFacts(source, c, seed, at, fuel);
    DistinctPrefix(source, EliteCount(|source|, c));
    DedupeOfDistinct(elite);
  }

  lemma DistinctPrefix(rs: seq<Record>, n: nat)
    requires DistinctIds(rs) && n <= |rs|
    ensures DistinctIds(rs[..n])
  {
    forall i, j | 0 <= i < j < n ensures rs[..n][i].individualId != rs[..n][j].individualId {
      assert rs[..n][i] == rs[i] && rs[..n][j] == rs[j];
    }
  }

  /** The candidates of the diversity sample are records of the source. */
  lemma CandidatesWithin(source: seq<Record>, c: EvolutionConfig)
    requires c.Valid() && source != []
    ensures forall x :: x in Candidates(source, c) ==> x in source
  {
    QuotaBounds(|source|, c);
    var e := EliteCount(|source|, c);
    forall x | x in source[e..] ensures x in source {
      var k :| 0 <= k < |source[e..]| && source[e..][k] == x;
      assert source[e + k] == x;
    }
  }

  /** `selectParents(records, config, rng)`. The retry loop runs at most
      `retryBudget` times. */
  method SelectParents(records: seq<Record>, c: EvolutionConfig, retryBudget: nat, rng: Rng) returns (pool: seq<Record>)
    requires rng.Valid() && c.Valid()
    modifies rng
    ensures rng.Valid()
    ensures var r := SelectedParents(records, c, rng.seed, old(rng.draws), retryBudget);
      pool == r.0 && rng.draws == r.1
  {
    var source := ParentSource(records);
    if |source| == 0 {
      return [];
    }
    pool := PoolFrom(source, c, retryBudget, rng);
  }

  /** `selectParents` once the source is known to be non-empty. */
  method PoolFrom(source: seq<Record>, c: EvolutionConfig, retryBudget: nat, rng: Rng) returns (pool: seq<Record>)
    requires rng.Valid() && c.Valid() && source != []
    modifies rng
    ensures rng.Valid()
    ensures (pool, rng.draws) == SelectFrom(source, c, rng.seed, old(rng.draws), retryBudget)
  {
    pool := InitialParents(source, c, rng);
    if |pool| >= 2 || |source| <= 1 {
      return;
    }
    pool := RetryParents(pool, source, retryBudget, rng);
  }

  /** The elite and the diversity sample, deduplicated. */
  method InitialParents(source: seq<Record>, c: EvolutionConfig, rng: Rng) returns (pool: seq<Record>)
    requires rng.Valid() && c.Valid() && source != []
    modifies rng
    ensures rng.Valid() && rng.draws == old(rng.draws) + DiversityDraws(source, c)
    ensures pool == InitialPool(source, c, rng.seed, old(rng.draws))
  {
    QuotaBounds(|source|, c);
    var eliteCount := EliteCount(|source|, c);
    var diversityCount := DiversityCount(|source|, eliteCount, c);
    var elite := source[..eliteCount];
    var remainder := source[eliteCount..];
    var candidates := if |remainder| > 0 then remainder else source;
    var diversity := SampleWithoutReplacement(candidates, diversityCount, rng);
    pool := DedupeByIndividualId(elite + diversity);
  }

  /** The retry loop of `selectParents`, at most `fuel` picks. */
  method RetryParents(first: seq<Record>, source: seq<Record>, fuel: nat, rng: Rng) returns (pool: seq<Record>)
    requires rng.Valid() && source != []
    modifies rng
    ensures rng.Valid()
    ensures (pool, rng.draws) == Retry(first, source, rng.seed, old(rng.draws), fuel)
  {
    pool := first;
    ghost var at := rng.draws;
    var attempts := 0;
    while |pool| < 2 && |pool| < |source| && attempts < fuel
      invariant 0 <= attempts <= fuel && rng.Valid() && rng.draws == at + attempts
      invariant Retry(first, source, rng.seed, at, fuel) == Retry(pool, source, rng.seed, rng.draws, fuel - attempts)
      decreases fuel - attempts
    {
      var index := rng.Int(0, |source| - 1);
      var candidate := source[index];
      var present := exists k :: 0 <= k < |pool| && pool[k].individualId == candidate.individualId;
      assert present <==> candidate.individualId in IdSet(pool);
      if !present {
        pool := pool + [candidate];
      }
      attempts := attempts + 1;
    }
  }

  // ------------------------------------------------------------ population size

  /** The smallest next population: `initial * minPopulationRatio`, rounded
      and kept in [4, 10000]. */
  function MinimumPopulation(init: nat, life: LifeConfig): int {
    ClampInteger(Some(MathRound(init as real * life.minPopulationRatio) as real), 4, 10000, init)
  }

  /** The largest next population: `initial * maxPopulationRatio`, rounded and
      kept in [minimum, 10000]. */
  function MaximumPopulation(init: nat, life: LifeConfig): int {
    ClampInteger(Some(MathRound(init as real * life.maxPopulationRatio) as real), MinimumPopulation(init, life), 10000, init)
  }

  /** How well the living did: mean energy against the maximum (weight
      0.45), mean score out of 100 (0.35), survival ratio (0.2). */
  function GrowthSignal(records: seq<Record>, living: seq<Record>, life: LifeConfig): real
    requires life.maxEnergy != 0.0
  {
    var avgEnergy := Average(seq(|living|, i requires 0 <= i < |living| => living[i].energy.after));
    var avgScore := Average(seq(|living|, i requires 0 <= i < |living| => living[i].score));
    var survival := |living| as real / MaxInt(1, |records|) as real;
    avgEnergy / life.maxEnergy * 0.45 + avgScore / 100.0 * 0.35 + survival * 0.2
  }

  /** The population for a target size (`initial * (0.65 + signal)`):
      rounded and clamped between the minimum and the maximum. */
  function PopulationFor(init: nat, target: real, life: LifeConfig): int {
    ClampInteger(Some(MathRound(target) as real), MinimumPopulation(init, life), MaximumPopulation(init, life), init)
  }

  /** `estimateNextPopulation({ records, living, initialPopulationSize,
      lifeConfig })`. */
  function EstimateNextPopulation(records: seq<Record>, living: seq<Record>, init: nat, life: LifeConfig): (n: nat)
    requires life.Valid()
  {
    PopulationBounds(init, life);
    if !life.variablePopulationEnabled then init
    else if living == [] then MinimumPopulation(init, life)
    else PopulationFor(init, init as real * (0.65 + GrowthSignal(records, living, life)), life)
  }

  lemma PopulationBounds(init: nat, life: LifeConfig)
    ensures 4 <= MinimumPopulation(init, life) <= MaximumPopulation(init, life) <= 10000
    ensures forall t :: MinimumPopulation(init, life) <= PopulationFor(init, t, life) <= MaximumPopulation(init, life)
  {
  }

  /** A fixed population keeps the initial size; a variable one lies
      between the minimum and the maximum, within [4, 10000], and falls to
      the minimum when nobody lives. */
  lemma EstimateBounds(records: seq<Record>, living: seq<Record>, init: nat, life: LifeConfig)
    requires life.Valid()
    ensures var n := EstimateNextPopulation(records, living, init, life);
      && (!life.variablePopulationEnabled ==> n == init)
      && (life.variablePopulationEnabled ==>
            4 <= MinimumPopulation(init, life) <= n <= MaximumPopulation(init, life) <= 10000)
      && (life.variablePopulationEnabled && living == [] ==> n == MinimumPopulation(init, life))
      && (init >= 1 ==> n >= 1)
  {
    PopulationBounds(init, life);
  }

  /** A stronger growth signal never shrinks the next population. */
  lemma PopulationRisesWithSignal(init: nat, s1: real, s2: real, life: LifeConfig)
    requires s1 <= s2
    ensures PopulationFor(init, init as real * (0.65 + s1), life) <= PopulationFor(init, init as real * (0.65 + s2), life)
  {
    ScaleLe(init as real, 0.65 + s1, 0.65 + s2);
    PopulationForMono(init, init as real * (0.65 + s1), init as real * (0.65 + s2), life);
  }

  /** A larger target never gives a smaller population. */
  lemma PopulationForMono(init: nat, t1: real, t2: real, life: LifeConfig)
    requires t1 <= t2
    ensures PopulationFor(init, t1, life) <= PopulationFor(init, t2, life)
  {
    RoundedClampMono(t1, t2, MinimumPopulation(init, life), MaximumPopulation(init, life), init);
  }

  lemma ScaleLe(n: real, p: real, q: real)
    requires 0.0 <= n && p <= q
    ensures n * p <= n * q
  {
    assert n * q - n * p == n * (q - p);
  }

  /** Rounding then clamping keeps an order. */
  lemma RoundedClampMono(x1: real, x2: real, lo: int, hi: int, fallback: int)
    requires x1 <= x2
    ensures ClampInteger(Some(MathRound(x1) as real), lo, hi, fallback) <= ClampInteger(Some(MathRound(x2) as real), lo, hi, fallback)
  {
    FloorMono(x1 + 0.5, x2 + 0.5);
    MathRoundOfInt(MathRound(x1));
    MathRoundOfInt(MathRound(x2));
  }

  // ------------------------------------------------------------ energy

  /** `round(clampNumber(v, minBirthEnergy, maxEnergy, initialEnergy))`. */
  function BirthEnergy(v: real, life: LifeConfig): real {
    Round3(ClampNumber(Some(v), life.minBirthEnergy, life.maxEnergy, life.initialEnergy))
  }

  /** `(energyA + energyB) * 0.5 * energyInheritance`. */
  function InheritedBase(energyA: real, energyB: real, life: LifeConfig): real {
    (energyA + energyB) * 0.5 * life.energyInheritance
  }

  /** `randomFloat(-j, j, rng)` for the draw u: `u * (j - -j) + -j`. */
  function Jitter(u: Uint32, j: real): (r: real)
    ensures 0.0 <= j ==> -j <= r <= j
  {
    var r := Unit(u) * (j - -j) + -j;
    if 0.0 <= j then JitterRange(u, j); r else r
  }

  /** `inheritEnergy`: the mean parent energy scaled by `energyInheritance`,
      plus a jitter from the draw u, clamped to [minBirthEnergy, maxEnergy]
      and rounded. */
  function InheritedEnergy(energyA: real, energyB: real, life: LifeConfig, u: Uint32): real {
    BirthEnergy(InheritedBase(energyA, energyB, life) + Jitter(u, life.birthEnergyJitter), life)
  }

  /** A birth energy lies between the (rounded) birth minimum and the
      (rounded) maximum, and inside those bounds it is the value rounded. */
  lemma BirthEnergyBounds(v: real, life: LifeConfig)
    requires life.Valid()
    ensures Round3(life.minBirthEnergy) <= BirthEnergy(v, life) <= Round3(life.maxEnergy)
    ensures life.minBirthEnergy <= v <= life.maxEnergy ==> BirthEnergy(v, life) == Round3(v)
  {
    var clamped := ClampNumber(Some(v), life.minBirthEnergy, life.maxEnergy, life.initialEnergy);
    Round3Mono(life.minBirthEnergy, clamped);
    Round3Mono(clamped, life.maxEnergy);
  }

  /** A child's energy lies between the (rounded) birth minimum and the
      (rounded) maximum; when the whole jitter range around the inherited
      base fits inside those bounds, it is within the jitter (and the
      rounding) of the base. */
  lemma InheritedEnergyBounds(energyA: real, energyB: real, life: LifeConfig, u: Uint32)
    requires life.Valid()
    ensures Round3(life.minBirthEnergy) <= InheritedEnergy(energyA, energyB, life, u) <= Round3(life.maxEnergy)
    ensures var base := InheritedBase(energyA, energyB, life);
      var e := InheritedEnergy(energyA, energyB, life, u);
      life.minBirthEnergy <= base - life.birthEnergyJitter && base + life.birthEnergyJitter <= life.maxEnergy ==>
        base - life.birthEnergyJitter - 0.0005 <= e <= base + life.birthEnergyJitter + 0.0005
  {
    JitteredBirth(InheritedBase(energyA, energyB, life), Jitter(u, life.birthEnergyJitter), life);
  }

  lemma JitteredBirth(base: real, jitter: real, life: LifeConfig)
    requires life.Valid() && -life.birthEnergyJitter <= jitter <= life.birthEnergyJitter
    ensures Round3(life.minBirthEnergy) <= BirthEnergy(base + jitter, life) <= Round3(life.maxEnergy)
    ensures life.minBirthEnergy <= base - life.birthEnergyJitter && base + life.birthEnergyJitter <= life.maxEnergy ==>
      base - life.birthEnergyJitter - 0.0005 <= BirthEnergy(base + jitter, life) <= base + life.birthEnergyJitter + 0.0005
  {
    BirthEnergyBounds(base + jitter, life);
  }

  /** `randomFloat(-j, j, rng)` lies in [-j, j]. */
  lemma JitterRange(u: Uint32, j: real)
    requires 0.0 <= j
    ensures -j <= Unit(u) * (j - -j) + -j <= j
  {
    MulLe(Unit(u), 1.0, j - -j);
    MulLe(0.0, Unit(u), j - -j);
  }

  /** `inheritEnergy({ parentA, parentB, lifeConfig, rng })`: one draw. */
  method InheritEnergy(parentA: Record, parentB: Record, life: LifeConfig, rng: Rng) returns (e: real)
    requires rng.Valid()
    modifies rng
    ensures rng.Valid() && rng.draws == old(rng.draws) + 1
    ensures e == InheritedEnergy(parentA.energy.after, parentB.energy.after, life, Draw(rng.seed, old(rng.draws)))
    ensures life.Valid() ==> Round3(life.minBirthEnergy) <= e <= Round3(life.maxEnergy)
  {
    var u := rng.Next();
    e := InheritedEnergy(parentA.energy.after, parentB.energy.after, life, u);
    if life.Valid() {
      InheritedEnergyBounds(parentA.energy.after, parentB.energy.after, life, u);
    }
  }

  // ------------------------------------------------------------ breeding

  /** Child k (from 0) of generation `generation`, bred from a and b. */
  ghost predicate ChildOf(child: Member, k: nat, generation: nat, a: Record, b: Record, life: LifeConfig) {
    && child.id == IndividualId(generation, k + 1)
    && child.parentIds == [a.individualId, b.individualId]
    && child.age == MaxInt(a.age, b.age) + 1
    && Round3(life.minBirthEnergy) <= child.energy <= Round3(life.maxEnergy)
    && Normalized(child.genome)
  }

  /** The two parents the draws `at` and `at + 1` pick from the pool. */
  function DrawnParents(pool: seq<Record>, seed: Uint32, at: nat): (r: (Record, Record))
    requires pool != []
    ensures r.0 in pool && r.1 in pool
  {
    (pool[FromDraw(Draw(seed, at), 0, |pool| - 1)], pool[FromDraw(Draw(seed, at + 1), 0, |pool| - 1)])
  }

  /** `pickParents`: two `pick`s from the pool. */
  method PickParents(pool: seq<Record>, rng: Rng) returns (a: Record, b: Record)
    requires rng.Valid() && pool != []
    modifies rng
    ensures rng.Valid() && rng.draws == old(rng.draws) + 2
    ensures (a, b) == DrawnParents(pool, rng.seed, old(rng.draws))
  {
    var ia := rng.Int(0, |pool| - 1);
    a := pool[ia];
    var ib := rng.Int(0, |pool| - 1);
    b := pool[ib];
  }

  /** The k-th child (from 0) of generation `generation`, bred from a and
      b, with its genome and energy. */
  function Offspring(k: nat, generation: nat, a: Record, b: Record, genome: Genome, energy: real): Member {
    Member(IndividualId(generation, k + 1), [a.individualId, b.individualId], MaxInt(a.age, b.age) + 1, energy, genome)
  }

  /** Child k (from 0) of generation `generation` bred from a and b by the
      stream from draw `at` on, and the next unread draw: `ChildGenome`
      reads the first draws, and one more jitters the inherited energy. */
  function BredFrom(a: Record, b: Record, k: nat, generation: nat, c: EvolutionConfig, life: LifeConfig,
                    seed: Uint32, at: nat): (r: (Member, nat))
    ensures at + 2 * FieldCount < r.1 <= at + 1 + 3 * FieldCount
  {
    var bred := ChildGenome(a.genome, b.genome, c, seed, at);
    var u := Draw(seed, bred.1);
    (Offspring(k, generation, a, b, bred.0, InheritedEnergy(a.energy.after, b.energy.after, life, u)), bred.1 + 1)
  }

  /** A bred child has the id, the parents and the age of child k, a
      birth energy within the bounds and a normalized genome. */
  lemma BredFromChildOf(a: Record, b: Record, k: nat, generation: nat, c: EvolutionConfig, life: LifeConfig,
                        seed: Uint32, at: nat)
    requires life.Valid()
    ensures ChildOf(BredFrom(a, b, k, generation, c, life, seed, at).0, k, generation, a, b, life)
  {
    var bred := ChildGenome(a.genome, b.genome, c, seed, at);
    InheritedEnergyBounds(a.energy.after, b.energy.after, life, Draw(seed, bred.1));
  }

  /** The crossover, the mutation and the inherited energy of one child
      whose parents are a and b. */
  method BreedFrom(a: Record, b: Record, k: nat, nextGeneration: nat, c: EvolutionConfig, life: LifeConfig, rng: Rng)
    returns (child: Member)
    requires rng.Valid()
    modifies rng
    ensures rng.Valid()
    ensures (child, rng.draws) == BredFrom(a, b, k, nextGeneration, c, life, rng.seed, old(rng.draws))
  {
    var genome := CrossAndMutate(a.genome, b.genome, c, rng);
    ghost var next := rng.draws;
    assert (genome, next) == ChildGenome(a.genome, b.genome, c, rng.seed, old(rng.draws));
    var energy := InheritEnergy(a, b, life, rng);
    assert rng.draws == next + 1;
    assert energy == InheritedEnergy(a.energy.after, b.energy.after, life, Draw(rng.seed, next));
    child := Offspring(k, nextGeneration, a, b, genome, energy);
  }

  /** One child of `breedNextPopulation`: two picks from the pool, the
      crossover, the mutation and the inherited energy. */
  method BreedChild(pool: seq<Record>, k: nat, nextGeneration: nat, c: EvolutionConfig, life: LifeConfig, rng: Rng)
    returns (child: Member, ghost a: Record, ghost b: Record)
    requires rng.Valid() && pool != []
    modifies rng
    ensures rng.Valid()
    ensures (a, b) == DrawnParents(pool, rng.seed, old(rng.draws))
    ensures (child, rng.draws) == BredFrom(a, b, k, nextGeneration, c, life, rng.seed, old(rng.draws) + 2)
  {
    var parentA, parentB := PickParents(pool, rng);
    child := BreedFrom(parentA, parentB, k, nextGeneration, c, life, rng);
    a, b := parentA, parentB;
  }

  /** The genome `mutateGenome(crossoverGenomes(a, b, rng), config, rng)`
      gives from the stream starting at draw `at`, and the next unread draw:
      eight draws for the crossover, then one or two per trait. */
  function ChildGenome(a: Genome, b: Genome, c: EvolutionConfig, seed: Uint32, at: nat): (r: (Genome, nat))
    ensures Normalized(r.0)
    ensures at + 2 * FieldCount <= r.1 <= at + 3 * FieldCount
    ensures c.mutationRate <= 0.0 ==>
      r == (NormalizeGenome(ToRaw(NormalizeGenome(CrossChild(ToRaw(a), ToRaw(b), Window(seed, at, FieldCount))))),
            at + 2 * FieldCount)
  {
    var crossed := NormalizeGenome(CrossChild(ToRaw(a), ToRaw(b), Window(seed, at, FieldCount)));
    var mutated := MutatedRaw(crossed, c.mutationRate, c.mutationStrength, seed, at + FieldCount);
    (NormalizeGenome(mutated.0), mutated.1)
  }

  /** `mutateGenome(crossoverGenomes(a, b, rng), config, rng)`. */
  method CrossAndMutate(a: Genome, b: Genome, c: EvolutionConfig, rng: Rng) returns (genome: Genome)
    requires rng.Valid()
    modifies rng
    ensures rng.Valid() && rng.draws > old(rng.draws)
    ensures Normalized(genome)
    ensures (genome, rng.draws) == ChildGenome(a, b, c, rng.seed, old(rng.draws))
  {
    var crossed := Crossover(a, b, rng);
    ghost var raw;
    genome, raw := Mutate(crossed, c.mutationRate, c.mutationStrength, rng);
  }

  /** Children 0 to |children| - 1, each bred from its pair of parents
      taken from `pool`. */
  ghost predicate Bred(children: seq<Member>, parents: seq<(Record, Record)>, pool: seq<Record>, generation: nat, life: LifeConfig) {
    && |children| == |parents|
    && forall k :: 0 <= k < |children| ==>
         && parents[k].0 in pool && parents[k].1 in pool
         && ChildOf(children[k], k, generation, parents[k].0, parents[k].1, life)
  }

  lemma BredSnoc(children: seq<Member>, parents: seq<(Record, Record)>, pool: seq<Record>, generation: nat, life: LifeConfig,
                 child: Member, a: Record, b: Record)
    requires Bred(children, parents, pool, generation, life)
    requires a in pool && b in pool && ChildOf(child, |children|, generation, a, b, life)
    ensures Bred(children + [child], parents + [(a, b)], pool, generation, life)
  {
  }

  /** The first n children the stream from draw `at` on breeds from `pool`,
      each with its parents, and the next unread draw: child k takes two
      draws to pick its parents, then `BredFrom` reads the rest. */
  function BredRun(pool: seq<Record>, n: nat, generation: nat, c: EvolutionConfig, life: LifeConfig,
                   seed: Uint32, at: nat): (r: (seq<Member>, seq<(Record, Record)>, nat))
    requires pool != []
    ensures |r.0| == |r.1| == n && at <= r.2
  {
    if n == 0 then ([], [], at)
    else
      var prev := BredRun(pool, n - 1, generation, c, life, seed, at);
      var parents := DrawnParents(pool, seed, prev.2);
      var bred := BredFrom(parents.0, parents.1, n - 1, generation, c, life, seed, prev.2 + 2);
      (prev.0 + [bred.0], prev.1 + [parents], bred.1)
  }

  /** The `Array.from({ length: target }, …)` of `breedNextPopulation`. */
  method BreedChildren(pool: seq<Record>, target: nat, nextGeneration: nat, c: EvolutionConfig, life: LifeConfig, rng: Rng)
    returns (children: seq<Member>, ghost parents: seq<(Record, Record)>)
    requires rng.Valid() && life.Valid() && pool != []
    modifies rng
    ensures rng.Valid()
    ensures (children, parents, rng.draws) == BredRun(pool, target, nextGeneration, c, life, rng.seed, old(rng.draws))
    ensures Bred(children, parents, pool, nextGeneration, life)
  {
    children, parents := [], [];
    for k := 0 to target
      invariant rng.Valid()
      invariant (children, parents, rng.draws) == BredRun(pool, k, nextGeneration, c, life, rng.seed, old(rng.draws))
      invariant Bred(children, parents, pool, nextGeneration, life)
    {
      ghost var at := rng.draws;
      var child, a, b := BreedChild(pool, k, nextGeneration, c, life, rng);
      BredFromChildOf(a, b, k, nextGeneration, c, life, rng.seed, at + 2);
      BredSnoc(children, parents, pool, nextGeneration, life, child, a, b);
      children, parents := children + [child], parents + [(a, b)];
    }
  }

  /** The living of the parent source are the parent source itself. */
  lemma ParentSourceIdempotent(records: seq<Record>)
    ensures ParentSource(ParentSource(records)) == ParentSource(records)
  {
    if Living(records) != [] {
      AllLiving(Living(records));
    }
  }

  lemma {:induction false} AllLiving(rs: seq<Record>)
    requires forall x :: x in rs ==> !x.diag.isDead
    ensures Living(rs) == rs
  {
    if rs != [] {
      var init := rs[..|rs| - 1];
      assert forall x :: x in init ==> x in rs;
      AllLiving(init);
      assert rs == init + [rs[|rs| - 1]];
    }
  }

  /** `breedNextPopulation({ records, nextGeneration, initialPopulationSize,
      config, lifeConfig, rng })`. The source throws when it has no parent to
      pick yet children to make; that is `None` here. Every parent comes from
      the selected pool. */
  method BreedNextPopulation(records: seq<Record>, nextGeneration: nat, initialPopulationSize: nat,
                             c: EvolutionConfig, life: LifeConfig, retryBudget: nat, rng: Rng)
    returns (next: Option<seq<Member>>, ghost parents: seq<(Record, Record)>)
    requires rng.Valid() && c.Valid() && life.Valid()
    modifies rng
    ensures rng.Valid() && rng.draws >= old(rng.draws)
    ensures var target := EstimateNextPopulation(records, Living(records), initialPopulationSize, life);
      var pool := SelectedParents(records, c, rng.seed, old(rng.draws), retryBudget).0;
      && (next.None? <==> records == [] && target > 0)
      && (next.Some? ==>
            && |next.value| == target && Bred(next.value, parents, pool, nextGeneration, life)
            && (pool != [] ==>
                  (next.value, parents, rng.draws)
                  == BredRun(pool, target, nextGeneration, c, life, rng.seed,
                             SelectedParents(records, c, rng.seed, old(rng.draws), retryBudget).1)))
  {
    var living := Living(records);
    var source := if |living| > 0 then living else records;
    ParentSourceIdempotent(records);
    var parentPool := SelectParents(source, c, retryBudget, rng);
    ghost var selected := SelectedParents(records, c, rng.seed, old(rng.draws), retryBudget).0;
    if source != [] {
      SelectFromFacts(source, c, rng.seed, old(rng.draws), retryBudget);
    }
    assert parentPool == selected;
    var fallbackPool := if |parentPool| > 0 then parentPool else source;
    var target := EstimateNextPopulation(records, living, initialPopulationSize, life);
    if |fallbackPool| == 0 {
      parents := [];
      if target > 0 {
        return None, parents;
      }
      return Some([]), parents;
    }
    assert fallbackPool == selected;
    var children;
    children, parents := BreedChildren(fallbackPool, target, nextGeneration, c, life, rng);
    next := Some(children);
  }
}
