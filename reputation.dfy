/**
 * The experimental reputation system (dist/golem-js-experimental.js, ReputationSystem):
 * presets, the provider/operator tables built from reputation data, the weighted score,
 * the first-match proposal filter, the provider pool and the top-K agreement selector.
 * Scores are reals; the score comparisons model JavaScript's division by a zero total
 * weight, while the agreement selector requires a non-zero one.
 */
module Reputation {
  import opened Wrappers
  import opened Seqs

  /** A provider's named scores (uptime, successRate, cpuSingleThreadScore, ...). */
  type Scores = map<string, real>

  /** One key of a weights object; the value may be undefined. */
  datatype WeightEntry = WeightEntry(key: string, weight: Option<real>)
  type Weights = seq<WeightEntry>

  const DefaultProposalMinScore: real := 0.8
  const DefaultAgreementTopPoolSize: nat := 2
  const DefaultProposalWeights: Weights := [WeightEntry("uptime", Some(0.5)), WeightEntry("successRate", Some(0.5))]
  const DefaultAgreementWeights: Weights := [WeightEntry("uptime", Some(0.5)), WeightEntry("successRate", Some(0.5))]

  function WeightOf(e: WeightEntry): real
  {
    e.weight.GetOr(0.0)
  }

  function ValueOf(scores: Scores, key: string): real
  {
    if key in scores then scores[key] else 0.0
  }

  function TotalWeight(ws: Weights): real
  {
    if |ws| == 0 then 0.0 else TotalWeight(ws[..|ws| - 1]) + WeightOf(ws[|ws| - 1])
  }

  function WeightedSum(scores: Scores, ws: Weights): real
  {
    if |ws| == 0 then 0.0
    else WeightedSum(scores, ws[..|ws| - 1]) + WeightOf(ws[|ws| - 1]) * ValueOf(scores, ws[|ws| - 1].key)
  }

  /** The normalized score Σ(weight·value) / Σweight, missing weights and values counting as 0. */
  function Score(scores: Scores, ws: Weights): real
    requires TotalWeight(ws) != 0.0
  {
    WeightedSum(scores, ws) / TotalWeight(ws)
  }

  /** `calculateScore`: accumulates both sums over the keys of the weights. */
  method CalculateScore(scores: Scores, ws: Weights) returns (r: real)
    requires TotalWeight(ws) != 0.0
    ensures r == Score(scores, ws)
  {
    var totalWeight := 0.0;
    var score := 0.0;
    for i := 0 to |ws|
      invariant totalWeight == TotalWeight(ws[..i])
      invariant score == WeightedSum(scores, ws[..i])
    {
      assert ws[..i + 1][..i] == ws[..i];
      var weight := WeightOf(ws[i]);
      var value := ValueOf(scores, ws[i].key);
      totalWeight := totalWeight + weight;
      score := score + weight * value;
    }
    assert ws[..|ws|] == ws;
    r := score / totalWeight;
  }

  lemma ProductMonotone(w: real, a: real, b: real)
    requires w >= 0.0 && a <= b
    ensures w * a <= w * b
  {
    assert w * b - w * a == w * (b - a);
  }

  lemma StepLowerBound(sum: real, total: real, w: real, v: real, lo: real)
    requires lo * total <= sum && w >= 0.0 && lo <= v
    ensures lo * (total + w) <= sum + w * v
  {
    ProductMonotone(w, lo, v);
    assert lo * (total + w) == lo * total + w * lo;
  }

  lemma StepUpperBound(sum: real, total: real, w: real, v: real, hi: real)
    requires sum <= hi * total && w >= 0.0 && v <= hi
    ensures sum + w * v <= hi * (total + w)
  {
    ProductMonotone(w, v, hi);
    assert hi * (total + w) == hi * total + w * hi;
  }

  lemma {:induction false} WeightedSumLowerBound(scores: Scores, ws: Weights, lo: real)
    requires forall i :: 0 <= i < |ws| ==> WeightOf(ws[i]) >= 0.0 && lo <= ValueOf(scores, ws[i].key)
    ensures lo * TotalWeight(ws) <= WeightedSum(scores, ws)
  {
    if |ws| > 0 {
      var n := |ws| - 1;
      var w, v := WeightOf(ws[n]), ValueOf(scores, ws[n].key);
      var total, sum := TotalWeight(ws[..n]), WeightedSum(scores, ws[..n]);
      WeightedSumLowerBound(scores, ws[..n], lo);
      StepLowerBound(sum, total, w, v, lo);
      assert TotalWeight(ws) == total + w && WeightedSum(scores, ws) == sum + w * v;
    }
  }

  lemma {:induction false} WeightedSumUpperBound(scores: Scores, ws: Weights, hi: real)
    requires forall i :: 0 <= i < |ws| ==> WeightOf(ws[i]) >= 0.0 && ValueOf(scores, ws[i].key) <= hi
    ensures WeightedSum(scores, ws) <= hi * TotalWeight(ws)
  {
    if |ws| > 0 {
      var n := |ws| - 1;
      var w, v := WeightOf(ws[n]), ValueOf(scores, ws[n].key);
      var total, sum := TotalWeight(ws[..n]), WeightedSum(scores, ws[..n]);
      WeightedSumUpperBound(scores, ws[..n], hi);
      StepUpperBound(sum, total, w, v, hi);
      assert TotalWeight(ws) == total + w && WeightedSum(scores, ws) == sum + w * v;
    }
  }

  lemma DivisionBounds(s: real, t: real, lo: real, hi: real)
    requires t > 0.0 && lo * t <= s <= hi * t
    ensures lo <= s / t <= hi
  {
    assert s / t * t == s;
    if s / t < lo {
      ProductMonotone(t, s / t, lo);
    }
    if s / t > hi {
      ProductMonotone(t, hi, s / t);
    }
  }

  /** With non-negative weights the score is a weighted mean: it stays within the values' bounds. */
  lemma ScoreWithinValueBounds(scores: Scores, ws: Weights, lo: real, hi: real)
    requires forall i :: 0 <= i < |ws| ==> WeightOf(ws[i]) >= 0.0 && lo <= ValueOf(scores, ws[i].key) <= hi
    requires TotalWeight(ws) > 0.0
    ensures lo <= Score(scores, ws) <= hi
  {
    WeightedSumLowerBound(scores, ws, lo);
    WeightedSumUpperBound(scores, ws, hi);
    DivisionBounds(WeightedSum(scores, ws), TotalWeight(ws), lo, hi);
  }

  // ---------------------------------------------------------------------------
  // Reputation data and options
  // ---------------------------------------------------------------------------

  datatype ProviderInfo = ProviderInfo(id: string, walletAddress: string)
  datatype TestedProvider = TestedProvider(provider: ProviderInfo, scores: Scores)
  datatype RejectedProvider = RejectedProvider(provider: ProviderInfo, reason: string)
  datatype RejectedOperator = RejectedOperator(walletAddress: string, reason: string)
  datatype ReputationData = ReputationData(
    testedProviders: seq<TestedProvider>,
    rejectedProviders: Option<seq<RejectedProvider>>,
    rejectedOperators: Option<seq<RejectedOperator>>)

  /** The part of an offer proposal the reputation system inspects. */
  datatype Candidate = Candidate(proposalId: string, provider: ProviderInfo)

  datatype FilterOptions = FilterOptions(min: Option<real>, acceptUnlisted: Option<bool>)
  datatype SelectorOptions = SelectorOptions(topPoolSize: Option<nat>)

  datatype FilterPreset = FilterPreset(min: Option<real>, weights: Option<Weights>, acceptUnlisted: Option<bool>)
  datatype SelectorPreset = SelectorPreset(weights: Option<Weights>, topPoolSize: Option<nat>)
  datatype Preset = Preset(filter: Option<FilterPreset>, selector: Option<SelectorPreset>)

  datatype ReputationError = PresetNotFound(name: string)

  /** REPUTATION_PRESETS: "compute" for short CPU-bound tasks, "service" for long-running ones. */
  function FindPreset(name: string): (r: Option<Preset>)
    ensures r.Some? <==> name == "compute" || name == "service"
  {
    if name == "compute" then
      Some(Preset(
        Some(FilterPreset(Some(0.5), Some([WeightEntry("cpuSingleThreadScore", Some(1.0))]), None)),
        Some(SelectorPreset(Some([WeightEntry("cpuSingleThreadScore", Some(1.0))]), Some(DefaultAgreementTopPoolSize)))))
    else if name == "service" then
      Some(Preset(
        Some(FilterPreset(Some(DefaultProposalMinScore),
                          Some([WeightEntry("uptime", Some(0.8)), WeightEntry("cpuMultiThreadScore", Some(0.2))]), None)),
        Some(SelectorPreset(Some([WeightEntry("uptime", Some(0.5)), WeightEntry("cpuMultiThreadScore", Some(0.5))]),
                            Some(DefaultAgreementTopPoolSize)))))
    else None
  }

  function TestedKey(e: TestedProvider): string { e.provider.id }
  function RejectedProviderKey(e: RejectedProvider): string { e.provider.id }
  function RejectedOperatorKey(e: RejectedOperator): string { e.walletAddress }

  function OrEmpty<T>(s: Option<seq<T>>): seq<T>
  {
    if s.Some? then s.value else []
  }

  /**
   * `score >= min` for the computed score. With a zero total weight (weights of both
   * signs can cancel) JavaScript divides by zero: a positive weighted sum gives +Infinity,
   * which reaches any min, while 0/0 (NaN) and -Infinity reach none.
   */
  predicate MeetsMin(scores: Scores, ws: Weights, min: real)
  {
    if TotalWeight(ws) == 0.0 then WeightedSum(scores, ws) > 0.0 else Score(scores, ws) >= min
  }

  /**
   * Cancelling weights: with uptime weighted 1 and successRate -1 the total is 0, so a
   * provider with a better uptime (score +Infinity) reaches every min and one with equal
   * scores (NaN) reaches none.
   */
  lemma CancellingWeightsMeetMin(min: real, uptime: real, successRate: real)
    ensures var ws := [WeightEntry("uptime", Some(1.0)), WeightEntry("successRate", Some(-1.0))];
            var scores := map["uptime" := uptime, "successRate" := successRate];
            TotalWeight(ws) == 0.0 && (MeetsMin(scores, ws, min) <==> uptime > successRate)
  {
    var ws := [WeightEntry("uptime", Some(1.0)), WeightEntry("successRate", Some(-1.0))];
    var scores := map["uptime" := uptime, "successRate" := successRate];
    assert ws[..2][..1] == ws[..1] && ws[..1][..0] == [] && ws[..2] == ws;
    assert ValueOf(scores, "uptime") == uptime && ValueOf(scores, "successRate") == successRate;
    assert TotalWeight(ws[..1]) == 1.0;
    assert WeightedSum(scores, ws[..1]) == uptime;
    assert TotalWeight(ws) == 0.0;
    assert WeightedSum(scores, ws) == uptime - successRate;
  }

  // ---------------------------------------------------------------------------
  // Sorting candidates by score, descending (sortCandidatesByScore)
  // ---------------------------------------------------------------------------

  /** `scoresMap.get(id) ?? 0` */
  function ScoreIn(scoresMap: map<string, real>, c: Candidate): real
  {
    if c.provider.id in scoresMap then scoresMap[c.provider.id] else 0.0
  }

  predicate SortedDesc(s: seq<Candidate>, scoresMap: map<string, real>)
  {
    forall i, j :: 0 <= i < j < |s| ==> ScoreIn(scoresMap, s[i]) >= ScoreIn(scoresMap, s[j])
  }

  /** Inserts c after every candidate scoring at least as much (a stable insertion). */
  function InsertByScore(c: Candidate, s: seq<Candidate>, scoresMap: map<string, real>): (r: seq<Candidate>)
    ensures |r| == |s| + 1
  {
    if |s| == 0 then [c]
    else if ScoreIn(scoresMap, s[0]) >= ScoreIn(scoresMap, c) then [s[0]] + InsertByScore(c, s[1..], scoresMap)
    else [c] + s
  }

  lemma {:induction false} InsertByScorePermutes(c: Candidate, s: seq<Candidate>, scoresMap: map<string, real>)
    ensures multiset(InsertByScore(c, s, scoresMap)) == multiset(s) + multiset{c}
  {
    if |s| > 0 && ScoreIn(scoresMap, s[0]) >= ScoreIn(scoresMap, c) {
      InsertByScorePermutes(c, s[1..], scoresMap);
      assert s == [s[0]] + s[1..];
    }
  }

  /** Every element of the insertion result scores at most the bound, if c and s do. */
  lemma {:induction false} InsertByScoreBounded(c: Candidate, s: seq<Candidate>, scoresMap: map<string, real>, bound: real)
    requires ScoreIn(scoresMap, c) <= bound
    requires forall k :: 0 <= k < |s| ==> ScoreIn(scoresMap, s[k]) <= bound
    ensures forall k :: 0 <= k < |InsertByScore(c, s, scoresMap)| ==> ScoreIn(scoresMap, InsertByScore(c, s, scoresMap)[k]) <= bound
  {
    if |s| > 0 && ScoreIn(scoresMap, s[0]) >= ScoreIn(scoresMap, c) {
      InsertByScoreBounded(c, s[1..], scoresMap, bound);
    }
  }

  lemma {:induction false} InsertByScoreSorted(c: Candidate, s: seq<Candidate>, scoresMap: map<string, real>)
    requires SortedDesc(s, scoresMap)
    ensures SortedDesc(InsertByScore(c, s, scoresMap), scoresMap)
  {
    if |s| > 0 && ScoreIn(scoresMap, s[0]) >= ScoreIn(scoresMap, c) {
      InsertByScoreSorted(c, s[1..], scoresMap);
      InsertByScoreBounded(c, s[1..], scoresMap, ScoreIn(scoresMap, s[0]));
      var rest := InsertByScore(c, s[1..], scoresMap);
      var r := [s[0]] + rest;
      forall i, j | 0 <= i < j < |r|
        ensures ScoreIn(scoresMap, r[i]) >= ScoreIn(scoresMap, r[j])
      {
        if i > 0 {
          assert r[i] == rest[i - 1] && r[j] == rest[j - 1];
        }
      }
    }
  }

  /** `Array.from(proposals).sort((a, b) => score(b) - score(a))` on a copy. */
  function SortCandidatesByScore(cs: seq<Candidate>, scoresMap: map<string, real>): (r: seq<Candidate>)
    ensures |r| == |cs|
  {
    if |cs| == 0 then []
    else InsertByScore(cs[|cs| - 1], SortCandidatesByScore(cs[..|cs| - 1], scoresMap), scoresMap)
  }

  /** The sorted copy is a permutation of the candidates, in descending score order. */
  lemma {:induction false} SortCandidatesByScoreCorrect(cs: seq<Candidate>, scoresMap: map<string, real>)
    ensures SortedDesc(SortCandidatesByScore(cs, scoresMap), scoresMap)
    ensures multiset(SortCandidatesByScore(cs, scoresMap)) == multiset(cs)
  {
    if |cs| > 0 {
      var n := |cs| - 1;
      SortCandidatesByScoreCorrect(cs[..n], scoresMap);
      InsertByScoreSorted(cs[n], SortCandidatesByScore(cs[..n], scoresMap), scoresMap);
      InsertByScorePermutes(cs[n], SortCandidatesByScore(cs[..n], scoresMap), scoresMap);
      assert cs == cs[..n] + [cs[n]];
    }
  }

  /** The index range of the random pick: `topPool === 1 ? 0 : floor(random * topPool)`. */
  function PickRange(poolSize: nat, n: nat): (k: nat)
    ensures k >= 1
    ensures n >= 1 ==> k <= n
    ensures 1 <= poolSize <= n ==> k == poolSize
  {
    var topPool := if poolSize < n then poolSize else n;
    if topPool <= 1 then 1 else topPool
  }

  // ---------------------------------------------------------------------------
  // The reputation system
  // ---------------------------------------------------------------------------

  class ReputationSystem {
    var data: ReputationData
    var proposalWeights: Weights
    var agreementWeights: Weights
    var providersScoreMap: map<string, TestedProvider>
    var rejectedProvidersMap: map<string, RejectedProvider>
    var rejectedOperatorsMap: map<string, RejectedOperator>
    var defaultFilterOptions: FilterOptions
    var defaultSelectorOptions: SelectorOptions

    /** The three tables are indexes of the current data. */
    ghost predicate Valid()
      reads this
    {
      providersScoreMap == IndexBy(data.testedProviders, TestedKey) &&
      rejectedProvidersMap == IndexBy(OrEmpty(data.rejectedProviders), RejectedProviderKey) &&
      rejectedOperatorsMap == IndexBy(OrEmpty(data.rejectedOperators), RejectedOperatorKey)
    }

    constructor ()
      ensures Valid()
      ensures data == ReputationData([], None, None)
      ensures proposalWeights == DefaultProposalWeights && agreementWeights == DefaultAgreementWeights
      ensures defaultFilterOptions == FilterOptions(Some(DefaultProposalMinScore), None)
      ensures defaultSelectorOptions == SelectorOptions(Some(DefaultAgreementTopPoolSize))
    {
      data := ReputationData([], None, None);
      proposalWeights := DefaultProposalWeights;
      agreementWeights := DefaultAgreementWeights;
      providersScoreMap := map[];
      rejectedProvidersMap := map[];
      rejectedOperatorsMap := map[];
      defaultFilterOptions := FilterOptions(Some(DefaultProposalMinScore), None);
      defaultSelectorOptions := SelectorOptions(Some(DefaultAgreementTopPoolSize));
    }

    /**
     * `usePreset`: an unknown name fails; otherwise the preset's weights replace the current
     * ones where given, its min and top-pool size fall back to the current defaults, and
     * acceptUnlisted is taken from the preset even when it leaves it undefined.
     */
    method UsePreset(name: string) returns (r: Outcome<ReputationError>)
      requires Valid()
      modifies this
      ensures Valid()
      ensures data == old(data) && providersScoreMap == old(providersScoreMap)
      ensures rejectedProvidersMap == old(rejectedProvidersMap) && rejectedOperatorsMap == old(rejectedOperatorsMap)
      ensures FindPreset(name).None? ==>
                r == Fail(PresetNotFound(name)) &&
                proposalWeights == old(proposalWeights) && agreementWeights == old(agreementWeights) &&
                defaultFilterOptions == old(defaultFilterOptions) && defaultSelectorOptions == old(defaultSelectorOptions)
      ensures FindPreset(name).Some? ==>
                var p := FindPreset(name).value;
                r == Pass &&
                proposalWeights == (if p.filter.Some? && p.filter.value.weights.Some? then p.filter.value.weights.value else old(proposalWeights)) &&
                agreementWeights == (if p.selector.Some? && p.selector.value.weights.Some? then p.selector.value.weights.value else old(agreementWeights)) &&
                defaultFilterOptions == FilterOptions(
                  if p.filter.Some? && p.filter.value.min.Some? then p.filter.value.min else old(defaultFilterOptions).min,
                  if p.filter.Some? then p.filter.value.acceptUnlisted else None) &&
                defaultSelectorOptions == SelectorOptions(
                  if p.selector.Some? && p.selector.value.topPoolSize.Some? then p.selector.value.topPoolSize else old(defaultSelectorOptions).topPoolSize)
    {
      var found := FindPreset(name);
      if found.None? {
        return Fail(PresetNotFound(name));
      }
      var p := found.value;
      if p.filter.Some? && p.filter.value.weights.Some? {
        proposalWeights := p.filter.value.weights.value;
      }
      if p.selector.Some? && p.selector.value.weights.Some? {
        agreementWeights := p.selector.value.weights.value;
      }
      defaultFilterOptions := FilterOptions(
        if p.filter.Some? && p.filter.value.min.Some? then p.filter.value.min else defaultFilterOptions.min,
        if p.filter.Some? then p.filter.value.acceptUnlisted else None);
      defaultSelectorOptions := SelectorOptions(
        if p.selector.Some? && p.selector.value.topPoolSize.Some? then p.selector.value.topPoolSize else defaultSelectorOptions.topPoolSize);
      r := Pass;
    }

    /** `setData`: the three tables are cleared and refilled from the data, later entries winning. */
    method SetData(d: ReputationData)
      modifies this
      ensures Valid()
      ensures data == d
      ensures proposalWeights == old(proposalWeights) && agreementWeights == old(agreementWeights)
      ensures defaultFilterOptions == old(defaultFilterOptions) && defaultSelectorOptions == old(defaultSelectorOptions)
    {
      var scoresTable: map<string, TestedProvider> := map[];
      var tested := d.testedProviders;
      for i := 0 to |tested|
        invariant scoresTable == IndexBy(tested[..i], TestedKey)
      {
        assert tested[..i + 1][..i] == tested[..i];
        scoresTable := scoresTable[tested[i].provider.id := tested[i]];
      }
      assert tested[..|tested|] == tested;
      var providersTable: map<string, RejectedProvider> := map[];
      var rejected := OrEmpty(d.rejectedProviders);
      for i := 0 to |rejected|
        invariant providersTable == IndexBy(rejected[..i], RejectedProviderKey)
      {
        assert rejected[..i + 1][..i] == rejected[..i];
        providersTable := providersTable[rejected[i].provider.id := rejected[i]];
      }
      assert rejected[..|rejected|] == rejected;
      var operatorsTable: map<string, RejectedOperator> := map[];
      var operators := OrEmpty(d.rejectedOperators);
      for i := 0 to |operators|
        invariant operatorsTable == IndexBy(operators[..i], RejectedOperatorKey)
      {
        assert operators[..i + 1][..i] == operators[..i];
        operatorsTable := operatorsTable[operators[i].walletAddress := operators[i]];
      }
      assert operators[..|operators|] == operators;
      data := d;
      providersScoreMap := scoresTable;
      rejectedProvidersMap := providersTable;
      rejectedOperatorsMap := operatorsTable;
    }

    method SetProposalWeights(ws: Weights)
      modifies this
      ensures proposalWeights == ws
      ensures data == old(data) && agreementWeights == old(agreementWeights)
      ensures providersScoreMap == old(providersScoreMap) && rejectedProvidersMap == old(rejectedProvidersMap)
      ensures rejectedOperatorsMap == old(rejectedOperatorsMap)
      ensures defaultFilterOptions == old(defaultFilterOptions) && defaultSelectorOptions == old(defaultSelectorOptions)
    {
      proposalWeights := ws;
    }

    method SetAgreementWeights(ws: Weights)
      modifies this
      ensures agreementWeights == ws
      ensures data == old(data) && proposalWeights == old(proposalWeights)
      ensures providersScoreMap == old(providersScoreMap) && rejectedProvidersMap == old(rejectedProvidersMap)
      ensures rejectedOperatorsMap == old(rejectedOperatorsMap)
      ensures defaultFilterOptions == old(defaultFilterOptions) && defaultSelectorOptions == old(defaultSelectorOptions)
    {
      agreementWeights := ws;
    }

    /** `getProviderScores`: None for an unlisted provider. */
    function GetProviderScores(providerId: string): (r: Option<Scores>)
      requires Valid()
      reads this
      ensures r.Some? <==> exists i :: 0 <= i < |data.testedProviders| && data.testedProviders[i].provider.id == providerId
      ensures r.Some? ==> exists i :: 0 <= i < |data.testedProviders| && data.testedProviders[i] == TestedProvider(data.testedProviders[i].provider, r.value) && data.testedProviders[i].provider.id == providerId
    {
      IndexByLastWins(data.testedProviders, TestedKey, providerId);
      if providerId in providersScoreMap then Some(providersScoreMap[providerId].scores) else None
    }

    /** `opts.min ?? defaults.min ?? 0.8` */
    function MinScore(opts: FilterOptions): real
      reads this
    {
      if opts.min.Some? then opts.min.value
      else if defaultFilterOptions.min.Some? then defaultFilterOptions.min.value
      else DefaultProposalMinScore
    }

    /** `opts.acceptUnlisted ?? defaults.acceptUnlisted ?? (no tested providers)` */
    function AcceptUnlisted(opts: FilterOptions): bool
      reads this
    {
      if opts.acceptUnlisted.Some? then opts.acceptUnlisted.value
      else if defaultFilterOptions.acceptUnlisted.Some? then defaultFilterOptions.acceptUnlisted.value
      else |data.testedProviders| == 0
    }

    /**
     * `offerProposalFilter(opts)(proposal)`: a rejected operator or a rejected provider is
     * refused; a listed provider passes when its score reaches min; an unlisted one follows
     * the acceptUnlisted fallback.
     */
    function OfferProposalFilter(opts: FilterOptions, c: Candidate): (accepted: bool)
      reads this
      ensures c.provider.walletAddress in rejectedOperatorsMap ==> !accepted
      ensures c.provider.id in rejectedProvidersMap ==> !accepted
      ensures accepted <==>
                c.provider.walletAddress !in rejectedOperatorsMap &&
                c.provider.id !in rejectedProvidersMap &&
                (c.provider.id in providersScoreMap ==>
                   MeetsMin(providersScoreMap[c.provider.id].scores, proposalWeights, MinScore(opts))) &&
                (c.provider.id !in providersScoreMap ==> AcceptUnlisted(opts))
    {
      if c.provider.walletAddress in rejectedOperatorsMap then false
      else if c.provider.id in rejectedProvidersMap then false
      else if c.provider.id in providersScoreMap then
        MeetsMin(providersScoreMap[c.provider.id].scores, proposalWeights, MinScore(opts))
      else AcceptUnlisted(opts)
    }

    /** `calculateProviderPool`: the tested providers, in order, whose score reaches min. */
    function CalculateProviderPool(opts: FilterOptions): (pool: seq<TestedProvider>)
      reads this
      ensures |pool| <= |data.testedProviders|
      ensures forall e :: e in pool <==> e in data.testedProviders && MeetsMin(e.scores, proposalWeights, MinScore(opts))
    {
      var ws := proposalWeights;
      var min := MinScore(opts);
      FilterMembership(data.testedProviders, (e: TestedProvider) => MeetsMin(e.scores, ws, min));
      Filter(data.testedProviders, (e: TestedProvider) => MeetsMin(e.scores, ws, min))
    }

    /** The score the selector caches for a provider: its scores, or none when unlisted. */
    function SelectorScore(providerId: string): real
      requires TotalWeight(agreementWeights) != 0.0
      reads this
    {
      Score(if providerId in providersScoreMap then providersScoreMap[providerId].scores else map[], agreementWeights)
    }

    /** `opts.topPoolSize ?? defaults.topPoolSize ?? 2` */
    function PoolSize(opts: SelectorOptions): nat
      reads this
    {
      if opts.topPoolSize.Some? then opts.topPoolSize.value
      else if defaultSelectorOptions.topPoolSize.Some? then defaultSelectorOptions.topPoolSize.value
      else DefaultAgreementTopPoolSize
    }

    /**
     * `offerProposalSelector(opts)(proposals)`: caches every candidate's score, sorts a copy
     * by descending score, and picks at random among the first min(poolSize, n) entries.
     */
    method OfferProposalSelector(opts: SelectorOptions, proposals: seq<Candidate>) returns (chosen: Option<Candidate>, ghost sorted: seq<Candidate>)
      requires TotalWeight(agreementWeights) != 0.0
      ensures chosen.None? <==> |proposals| == 0
      ensures multiset(sorted) == multiset(proposals)
      ensures forall i, j :: 0 <= i < j < |sorted| ==> SelectorScore(sorted[i].provider.id) >= SelectorScore(sorted[j].provider.id)
      ensures chosen.Some? ==> chosen.value in proposals
      ensures |sorted| == |proposals|
      ensures chosen.Some? ==> exists i :: 0 <= i < PickRange(PoolSize(opts), |proposals|) && i < |sorted| && sorted[i] == chosen.value
      ensures chosen.Some? ==> forall j :: PickRange(PoolSize(opts), |proposals|) <= j < |sorted| ==>
                SelectorScore(chosen.value.provider.id) >= SelectorScore(sorted[j].provider.id)
    {
      var scoresMap: map<string, real> := map[];
      for i := 0 to |proposals|
        invariant forall id :: id in scoresMap ==> scoresMap[id] == SelectorScore(id)
        invariant forall k :: 0 <= k < i ==> proposals[k].provider.id in scoresMap
      {
        var id := proposals[i].provider.id;
        var data := if id in providersScoreMap then providersScoreMap[id].scores else map[];
        var score := CalculateScore(data, agreementWeights);
        scoresMap := scoresMap[id := score];
      }
      var ranked := SortCandidatesByScore(proposals, scoresMap);
      SortCandidatesByScoreCorrect(proposals, scoresMap);
      sorted := ranked;
      forall c | c in ranked
        ensures ScoreIn(scoresMap, c) == SelectorScore(c.provider.id)
      {
        assert c in multiset(proposals);
        var k :| 0 <= k < |proposals| && proposals[k] == c;
      }
      forall i, j | 0 <= i < j < |ranked|
        ensures SelectorScore(ranked[i].provider.id) >= SelectorScore(ranked[j].provider.id)
      {
        assert ranked[i] in ranked && ranked[j] in ranked;
      }
      var range := PickRange(PoolSize(opts), |proposals|);
      var index :| 0 <= index < range;
      if index < |ranked| {
        chosen := Some(ranked[index]);
        assert ranked[index] in multiset(proposals);
      } else {
        chosen := None;
      }
    }
  }

  /**
   * `new ReputationSystem(config)`: a non-empty `config.preset` is applied with `usePreset`,
   * whose failure is the constructor's.
   */
  method NewReputationSystem(preset: Option<string>) returns (rs: ReputationSystem, r: Outcome<ReputationError>)
    ensures fresh(rs) && rs.Valid() && rs.data == ReputationData([], None, None)
    ensures preset.None? || preset.value == "" ==>
              r == Pass &&
              rs.proposalWeights == DefaultProposalWeights && rs.agreementWeights == DefaultAgreementWeights &&
              rs.defaultFilterOptions == FilterOptions(Some(DefaultProposalMinScore), None) &&
              rs.defaultSelectorOptions == SelectorOptions(Some(DefaultAgreementTopPoolSize))
    ensures preset.Some? && preset.value != "" ==> (r == Pass <==> FindPreset(preset.value).Some?)
    ensures preset.Some? && preset.value != "" && FindPreset(preset.value).None? ==> r == Fail(PresetNotFound(preset.value))
    ensures preset.Some? && preset.value != "" && FindPreset(preset.value).Some? ==>
              var p := FindPreset(preset.value).value;
              rs.proposalWeights == p.filter.value.weights.value && rs.agreementWeights == p.selector.value.weights.value &&
              rs.defaultFilterOptions == FilterOptions(p.filter.value.min, None) &&
              rs.defaultSelectorOptions == SelectorOptions(p.selector.value.topPoolSize)
  {
    rs := new ReputationSystem();
    r := Pass;
    if preset.Some? && preset.value != "" {
      r := rs.UsePreset(preset.value);
    }
  }

  /** A listed, non-rejected provider passes the filter exactly when its entry is in the provider pool. */
  lemma FilterAgreesWithProviderPool(rs: ReputationSystem, opts: FilterOptions, c: Candidate)
    requires rs.Valid()
    requires c.provider.walletAddress !in rs.rejectedOperatorsMap && c.provider.id !in rs.rejectedProvidersMap
    requires c.provider.id in rs.providersScoreMap
    ensures rs.OfferProposalFilter(opts, c) <==> rs.providersScoreMap[c.provider.id] in rs.CalculateProviderPool(opts)
  {
    IndexByValueIsEntry(rs.data.testedProviders, TestedKey, c.provider.id);
  }

  /** Raising the minimum never admits a proposal the lower minimum refused. */
  lemma FilterMonotoneInMin(rs: ReputationSystem, lo: real, hi: real, unlisted: Option<bool>, c: Candidate)
    requires lo <= hi
    ensures rs.OfferProposalFilter(FilterOptions(Some(hi), unlisted), c) ==> rs.OfferProposalFilter(FilterOptions(Some(lo), unlisted), c)
  {
  }
}
