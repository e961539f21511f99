/**
 * RiskSignalCollection: an ordered collection of risk signals. Queries are pure
 * functions over the sequence of signals; `addSignal` and `updateSignal` change the
 * collection in place, and the factories build one signal at a time.
 */
module SignalCollections {
  import opened Wrappers
  import opened Text
  import opened RiskScores
  import opened RiskSignals
  import opened Grouping

  // ---------------------------------------------------------------- filters

  function ScopeOf(s: RiskSignal): SignalScope { s.scope }

  /** `byScope`: the signals of one scope, in order. */
  function ByScope(sigs: seq<RiskSignal>, scope: SignalScope): (r: seq<RiskSignal>)
    ensures forall x :: x in r <==> x in sigs && x.scope == scope
  {
    KeyFilter(sigs, ScopeOf, scope)
  }

  /** `flagged(t)`: the signals strictly above `t`; a score equal to `t` is left out. */
  function Flagged(sigs: seq<RiskSignal>, threshold: real): (r: seq<RiskSignal>)
    ensures forall x :: x in r <==> x in sigs && x.score.value > threshold
  {
    Filter(sigs, (s: RiskSignal) => IsFlagged(s, threshold))
  }

  /**
   * `highRisk(t)`: the threshold is passed on to a predicate that takes none, so the
   * signals kept are those above 0.7 whatever `t` is.
   */
  function HighRisk(sigs: seq<RiskSignal>, threshold: real): (r: seq<RiskSignal>)
    ensures forall x :: x in r <==> x in sigs && x.score.value > 0.7
  {
    Filter(sigs, (s: RiskSignal) => IsHighRisk(s))
  }

  /** The threshold of `highRisk` has no effect: it equals `flagged(0.7)` for every threshold. */
  lemma HighRiskIgnoresThreshold(sigs: seq<RiskSignal>, threshold: real)
    ensures HighRisk(sigs, threshold) == Flagged(sigs, 0.7)
  {
    FilterExt(sigs, (s: RiskSignal) => IsHighRisk(s), (s: RiskSignal) => IsFlagged(s, 0.7));
  }

  /** Position of the first signal with the given name. */
  function FirstIndex(sigs: seq<RiskSignal>, name: string): (r: Option<nat>)
    ensures r.Some? ==> r.value < |sigs| && sigs[r.value].name == name
                        && forall j :: 0 <= j < r.value ==> sigs[j].name != name
    ensures r.None? ==> forall j :: 0 <= j < |sigs| ==> sigs[j].name != name
  {
    if sigs == [] then None
    else if sigs[0].name == name then Some(0)
    else match FirstIndex(sigs[1..], name)
      case None => None
      case Some(i) => Some(i + 1)
  }

  /** `byName`: the first signal with that name, if any. */
  function ByName(sigs: seq<RiskSignal>, name: string): (r: Option<RiskSignal>)
    ensures r.Some? <==> exists s :: s in sigs && s.name == name
    ensures r.Some? ==> r.value in sigs && r.value.name == name
  {
    match FirstIndex(sigs, name)
    case None => None
    case Some(i) => Some(sigs[i])
  }

  /** `byNames`: the signals whose name is among `names`, in order. */
  function ByNames(sigs: seq<RiskSignal>, names: seq<string>): (r: seq<RiskSignal>)
    ensures forall x :: x in r <==> x in sigs && x.name in names
  {
    Filter(sigs, (s: RiskSignal) => s.name in names)
  }

  /** `removeSignal`: a new sequence without any signal of that name. */
  function RemoveSignal(sigs: seq<RiskSignal>, name: string): (r: seq<RiskSignal>)
    ensures forall x :: x in r <==> x in sigs && x.name != name
    ensures ByName(r, name).None?
  {
    Filter(sigs, (s: RiskSignal) => s.name != name)
  }

  /** `hasFlaggedSignals(t)`. */
  function HasFlaggedSignals(sigs: seq<RiskSignal>, threshold: real): (b: bool)
    ensures b <==> exists s :: s in sigs && s.score.value > threshold
  {
    var r := Flagged(sigs, threshold);
    assert r != [] ==> r[0] in r;
    r != []
  }

  /** `hasHighRiskSignals(t)`: again the threshold plays no part. */
  function HasHighRiskSignals(sigs: seq<RiskSignal>, threshold: real): (b: bool)
    ensures b <==> exists s :: s in sigs && s.score.value > 0.7
  {
    var r := HighRisk(sigs, threshold);
    assert r != [] ==> r[0] in r;
    r != []
  }

  // ---------------------------------------------------------------- averages

  predicate AllBetween(sigs: seq<RiskSignal>, lo: real, hi: real) {
    forall s :: s in sigs ==> lo <= s.score.value <= hi
  }

  function SumScores(sigs: seq<RiskSignal>): real {
    if sigs == [] then 0.0 else sigs[0].score.value + SumScores(sigs[1..])
  }

  function MaxScore(sigs: seq<RiskSignal>): real
    requires sigs != []
  {
    if |sigs| == 1 then sigs[0].score.value
    else var m := MaxScore(sigs[1..]); if sigs[0].score.value >= m then sigs[0].score.value else m
  }

  function MinScore(sigs: seq<RiskSignal>): real
    requires sigs != []
  {
    if |sigs| == 1 then sigs[0].score.value
    else var m := MinScore(sigs[1..]); if sigs[0].score.value <= m then sigs[0].score.value else m
  }

  /** Every score lies between the minimum and the maximum, and both are attained. */
  lemma {:induction false} MinMaxBound(sigs: seq<RiskSignal>)
    requires sigs != []
    ensures AllBetween(sigs, MinScore(sigs), MaxScore(sigs))
    ensures exists s :: s in sigs && s.score.value == MaxScore(sigs)
    ensures exists s :: s in sigs && s.score.value == MinScore(sigs)
  {
    if |sigs| > 1 {
      MinMaxBound(sigs[1..]);
      forall s | s in sigs
        ensures MinScore(sigs) <= s.score.value <= MaxScore(sigs)
      {
        if s != sigs[0] {
          assert s in sigs[1..];
        }
      }
      var a :| a in sigs[1..] && a.score.value == MaxScore(sigs[1..]);
      var b :| b in sigs[1..] && b.score.value == MinScore(sigs[1..]);
      assert a in sigs && b in sigs;
    }
  }

  lemma {:induction false} SumBounds(sigs: seq<RiskSignal>, lo: real, hi: real)
    requires AllBetween(sigs, lo, hi)
    ensures lo * |sigs| as real <= SumScores(sigs) <= hi * |sigs| as real
  {
    if sigs != [] {
      AllBetweenTail(sigs, lo, hi);
      SumBounds(sigs[1..], lo, hi);
      assert sigs[0] in sigs;
      SumStep(lo, hi, sigs[0].score.value, SumScores(sigs[1..]), |sigs[1..]|);
    }
  }

  lemma AllBetweenTail(sigs: seq<RiskSignal>, lo: real, hi: real)
    requires sigs != [] && AllBetween(sigs, lo, hi)
    ensures AllBetween(sigs[1..], lo, hi)
  {
    forall s | s in sigs[1..] ensures lo <= s.score.value <= hi {
      assert s in sigs;
    }
  }

  /** Bounds on a sum of n terms extend to one more term within the same bounds. */
  lemma SumStep(lo: real, hi: real, v: real, rest: real, n: nat)
    requires lo * n as real <= rest <= hi * n as real
    requires lo <= v <= hi
    ensures lo * (n + 1) as real <= v + rest <= hi * (n + 1) as real
  {
    assert lo * (n + 1) as real == lo * n as real + lo;
    assert hi * (n + 1) as real == hi * n as real + hi;
  }

  /** `getOverallRiskScore`: the arithmetic mean of the scores, and 0 when empty. */
  function OverallRiskScore(sigs: seq<RiskSignal>): (r: RiskScore)
    ensures sigs == [] ==> r.value == 0.0
    ensures sigs != [] ==> r.value * |sigs| as real == SumScores(sigs)
  {
    if sigs == [] then RiskScore(0.0) else RiskScore(SumScores(sigs) / |sigs| as real)
  }

  /**
   * The aggregate scores keep the declared [0, 1] range: when every signal's score is
   * valid, so are the mean and the weighted score under positive weights.
   */
  lemma {:induction false} AggregatesKeepRange(sigs: seq<RiskSignal>, custom: map<SignalScope, Option<real>>)
    requires forall s :: s in sigs ==> Valid(s.score)
    requires PositiveWeights(custom)
    ensures Valid(OverallRiskScore(sigs))
    ensures Valid(WeightedScore(sigs, custom))
  {
    if sigs != [] {
      MinMaxBound(sigs);
      var a :| a in sigs && a.score.value == MaxScore(sigs);
      var b :| b in sigs && b.score.value == MinScore(sigs);
      MeanBetweenMinMax(sigs);
      WeightedBetweenMinMax(sigs, custom);
    }
  }

  /** The mean lies between the smallest and the largest score. */
  lemma {:induction false} MeanBetweenMinMax(sigs: seq<RiskSignal>)
    requires sigs != []
    ensures MinScore(sigs) <= OverallRiskScore(sigs).value <= MaxScore(sigs)
  {
    var lo, hi := MinScore(sigs), MaxScore(sigs);
    assert AllBetween(sigs, lo, hi) by {
      MinMaxBound(sigs);
    }
    MeanBetween(sigs, lo, hi);
  }

  /** The mean stays within any bounds on the scores. */
  lemma {:induction false} MeanBetween(sigs: seq<RiskSignal>, lo: real, hi: real)
    requires sigs != []
    requires AllBetween(sigs, lo, hi)
    ensures lo <= SumScores(sigs) / |sigs| as real <= hi
  {
    var sum, n := SumScores(sigs), |sigs| as real;
    assert lo * n <= sum <= hi * n by {
      SumBounds(sigs, lo, hi);
    }
    DivideBounds(sum, n, lo, hi);
  }

  /** From lo*d <= x <= hi*d and d > 0 follows lo <= x/d <= hi. */
  lemma DivideBounds(x: real, d: real, lo: real, hi: real)
    requires d > 0.0
    requires lo * d <= x <= hi * d
    ensures lo <= x / d <= hi
  {
  }

  // ---------------------------------------------------------------- weighted score

  /** The default weight of each scope. */
  function DefaultWeight(scope: SignalScope): real {
    match scope
    case DeviceNetwork => 0.3
    case Document => 0.3
    case ReferringSession => 0.2
    case Account => 0.1
    case Session => 0.1
  }

  /**
   * The weight of a scope: caller weights override the defaults (array_merge), and a
   * null weight counts as 0.1. Every scope has a default, so a scope is never missing.
   */
  function Weight(custom: map<SignalScope, Option<real>>, scope: SignalScope): real {
    if scope in custom then custom[scope].GetOr(0.1) else DefaultWeight(scope)
  }

  /** The default weights sum to 1. */
  lemma DefaultWeightsSumToOne()
    ensures DefaultWeight(DeviceNetwork) + DefaultWeight(Document) + DefaultWeight(ReferringSession)
            + DefaultWeight(Account) + DefaultWeight(Session) == 1.0
  {
  }

  predicate PositiveWeights(custom: map<SignalScope, Option<real>>) {
    forall k :: k in custom && custom[k].Some? ==> custom[k].value > 0.0
  }

  /** The weight of every scope under the caller's overrides. */
  function Weights(custom: map<SignalScope, Option<real>>): SignalScope -> real {
    (scope: SignalScope) => Weight(custom, scope)
  }

  /** Σ score·weight over the signals, accumulated in order. */
  function WeightedSum(sigs: seq<RiskSignal>, weightOf: SignalScope -> real): real {
    if sigs == [] then 0.0
    else WeightedSum(sigs[..|sigs| - 1], weightOf)
         + sigs[|sigs| - 1].score.value * weightOf(sigs[|sigs| - 1].scope)
  }

  /** Σ weight over the signals, accumulated in order. */
  function TotalWeight(sigs: seq<RiskSignal>, weightOf: SignalScope -> real): real {
    if sigs == [] then 0.0
    else TotalWeight(sigs[..|sigs| - 1], weightOf) + weightOf(sigs[|sigs| - 1].scope)
  }

  /** `getWeightedRiskScore`: Σ(s·w)/Σw, or 0 on an empty collection or a zero total weight. */
  function WeightedScore(sigs: seq<RiskSignal>, custom: map<SignalScope, Option<real>>): (r: RiskScore)
    ensures sigs == [] ==> r.value == 0.0
    ensures sigs != [] && TotalWeight(sigs, Weights(custom)) > 0.0 ==>
              r.value * TotalWeight(sigs, Weights(custom)) == WeightedSum(sigs, Weights(custom))
    ensures TotalWeight(sigs, Weights(custom)) <= 0.0 ==> r.value == 0.0
  {
    var w := Weights(custom);
    if sigs == [] then RiskScore(0.0)
    else if TotalWeight(sigs, w) > 0.0 then RiskScore(WeightedSum(sigs, w) / TotalWeight(sigs, w))
    else RiskScore(0.0)
  }

  /** With positive weights the total weight is positive as soon as there is a signal. */
  lemma {:induction false} TotalWeightPositive(sigs: seq<RiskSignal>, weightOf: SignalScope -> real)
    requires forall scope :: weightOf(scope) > 0.0
    ensures TotalWeight(sigs, weightOf) >= 0.0
    ensures sigs != [] ==> TotalWeight(sigs, weightOf) > 0.0
  {
    if sigs != [] {
      TotalWeightPositive(sigs[..|sigs| - 1], weightOf);
    }
  }

  /** Every weight in use is positive when the caller's weights are. */
  lemma WeightsPositive(custom: map<SignalScope, Option<real>>)
    requires PositiveWeights(custom)
    ensures forall scope :: Weights(custom)(scope) > 0.0
  {
  }

  lemma LowerStep(lo: real, v: real, w: real, tw: real, ws: real, tw': real, ws': real)
    requires w > 0.0 && lo <= v && lo * tw <= ws
    requires tw' == tw + w && ws' == ws + v * w
    ensures lo * tw' <= ws'
  {
    assert lo * w <= v * w;
    assert lo * tw' == lo * tw + lo * w;
  }

  lemma UpperStep(hi: real, v: real, w: real, tw: real, ws: real, tw': real, ws': real)
    requires w > 0.0 && v <= hi && ws <= hi * tw
    requires tw' == tw + w && ws' == ws + v * w
    ensures ws' <= hi * tw'
  {
    assert v * w <= hi * w;
    assert hi * tw' == hi * tw + hi * w;
  }

  lemma {:induction false} WeightedSumLower(sigs: seq<RiskSignal>, weightOf: SignalScope -> real, lo: real)
    requires forall scope :: weightOf(scope) > 0.0
    requires forall s :: s in sigs ==> lo <= s.score.value
    ensures lo * TotalWeight(sigs, weightOf) <= WeightedSum(sigs, weightOf)
  {
    if sigs != [] {
      var init, last := sigs[..|sigs| - 1], sigs[|sigs| - 1];
      assert last in sigs;
      assert forall s :: s in init ==> s in sigs;
      WeightedSumLower(init, weightOf, lo);
      LowerStep(lo, last.score.value, weightOf(last.scope),
                TotalWeight(init, weightOf), WeightedSum(init, weightOf),
                TotalWeight(sigs, weightOf), WeightedSum(sigs, weightOf));
    }
  }

  lemma {:induction false} WeightedSumUpper(sigs: seq<RiskSignal>, weightOf: SignalScope -> real, hi: real)
    requires forall scope :: weightOf(scope) > 0.0
    requires forall s :: s in sigs ==> s.score.value <= hi
    ensures WeightedSum(sigs, weightOf) <= hi * TotalWeight(sigs, weightOf)
  {
    if sigs != [] {
      var init, last := sigs[..|sigs| - 1], sigs[|sigs| - 1];
      assert last in sigs;
      assert forall s :: s in init ==> s in sigs;
      WeightedSumUpper(init, weightOf, hi);
      UpperStep(hi, last.score.value, weightOf(last.scope),
                TotalWeight(init, weightOf), WeightedSum(init, weightOf),
                TotalWeight(sigs, weightOf), WeightedSum(sigs, weightOf));
    }
  }

  /** With positive weights the weighted mean stays within any bounds on the scores. */
  lemma {:induction false} WeightedMeanBetween(sigs: seq<RiskSignal>, weightOf: SignalScope -> real, lo: real, hi: real)
    requires sigs != []
    requires forall scope :: weightOf(scope) > 0.0
    requires AllBetween(sigs, lo, hi)
    ensures TotalWeight(sigs, weightOf) > 0.0
    ensures lo <= WeightedSum(sigs, weightOf) / TotalWeight(sigs, weightOf) <= hi
  {
    var ws, tw := WeightedSum(sigs, weightOf), TotalWeight(sigs, weightOf);
    assert tw > 0.0 && lo * tw <= ws <= hi * tw by {
      TotalWeightPositive(sigs, weightOf);
      WeightedSumLower(sigs, weightOf, lo);
      WeightedSumUpper(sigs, weightOf, hi);
    }
    DivideBounds(ws, tw, lo, hi);
  }

  /** With positive weights the weighted score lies between the minimum and the maximum score. */
  lemma {:induction false} WeightedBetweenMinMax(sigs: seq<RiskSignal>, custom: map<SignalScope, Option<real>>)
    requires sigs != []
    requires PositiveWeights(custom)
    ensures MinScore(sigs) <= WeightedScore(sigs, custom).value <= MaxScore(sigs)
  {
    MinMaxBound(sigs);
    WeightsPositive(custom);
    WeightedMeanBetween(sigs, Weights(custom), MinScore(sigs), MaxScore(sigs));
  }

  // ---------------------------------------------------------------- most critical

  predicate NonIncreasing(sigs: seq<RiskSignal>) {
    forall i, j :: 0 <= i < j < |sigs| ==> sigs[i].score.value >= sigs[j].score.value
  }

  /** Place `x` after every signal scoring at least as much (a stable descending insert). */
  function InsertDesc(x: RiskSignal, sorted: seq<RiskSignal>): (r: seq<RiskSignal>)
    ensures |r| == |sorted| + 1
    ensures multiset(r) == multiset(sorted) + multiset{x}
  {
    if sorted == [] then [x]
    else if sorted[0].score.value >= x.score.value then
      assert sorted == [sorted[0]] + sorted[1..];
      [sorted[0]] + InsertDesc(x, sorted[1..])
    else [x] + sorted
  }

  lemma {:induction false} InsertDescSorted(x: RiskSignal, sorted: seq<RiskSignal>)
    requires NonIncreasing(sorted)
    ensures NonIncreasing(InsertDesc(x, sorted))
  {
    if sorted != [] && sorted[0].score.value >= x.score.value {
      InsertDescSorted(x, sorted[1..]);
      var r := InsertDesc(x, sorted);
      forall i, j | 0 <= i < j < |r|
        ensures r[i].score.value >= r[j].score.value
      {
        if i == 0 {
          assert r[j] in multiset(InsertDesc(x, sorted[1..]));
          assert r[j] == x || r[j] in multiset(sorted[1..]);
          if r[j] != x {
            var k :| 0 <= k < |sorted[1..]| && sorted[1..][k] == r[j];
            assert sorted[1 + k] == r[j];
          }
        }
      }
    }
  }

  /** `sortByDesc(score)`: stable, highest score first. */
  function SortDesc(sigs: seq<RiskSignal>): (r: seq<RiskSignal>)
    ensures |r| == |sigs|
    ensures multiset(r) == multiset(sigs)
  {
    if sigs == [] then []
    else
      assert sigs == sigs[..|sigs| - 1] + [sigs[|sigs| - 1]];
      InsertDesc(sigs[|sigs| - 1], SortDesc(sigs[..|sigs| - 1]))
  }

  lemma {:induction false} SortDescSorted(sigs: seq<RiskSignal>)
    ensures NonIncreasing(SortDesc(sigs))
  {
    if sigs != [] {
      SortDescSorted(sigs[..|sigs| - 1]);
      InsertDescSorted(sigs[|sigs| - 1], SortDesc(sigs[..|sigs| - 1]));
    }
  }

  function Min(a: int, b: int): int { if a <= b then a else b }

  function Abs(n: int): nat { if n < 0 then -n else n }

  /** Laravel `take(n)`: the first n items, or the last |n| items when n is negative. */
  function Take<T>(xs: seq<T>, n: int): (r: seq<T>)
    ensures |r| == Min(Abs(n), |xs|)
    ensures n >= 0 ==> r == xs[..|r|]
    ensures n < 0 ==> r == xs[|xs| - |r|..]
  {
    if n >= 0 then xs[..Min(n, |xs|)] else xs[|xs| - Min(-n, |xs|)..]
  }

  /** `getMostCritical(n)`: min(|n|, count) signals of the collection, highest score first. */
  function MostCritical(sigs: seq<RiskSignal>, limit: int): (r: seq<RiskSignal>)
    ensures |r| == Min(Abs(limit), |sigs|)
    ensures NonIncreasing(r)
    ensures multiset(r) <= multiset(sigs)
  {
    SortDescSorted(sigs);
    var sorted := SortDesc(sigs);
    var r := Take(sorted, limit);
    assert limit >= 0 ==> sorted == r + sorted[|r|..];
    assert limit < 0 ==> sorted == sorted[..|sorted| - |r|] + r;
    r
  }

  /** With a non-negative limit, no signal left out scores higher than one selected. */
  lemma MostCriticalAreTop(sigs: seq<RiskSignal>, limit: int, x: RiskSignal, y: RiskSignal)
    requires limit >= 0
    requires x in MostCritical(sigs, limit)
    requires y in sigs && y !in MostCritical(sigs, limit)
    ensures y.score.value <= x.score.value
  {
    SortDescSorted(sigs);
    var sorted := SortDesc(sigs);
    var r := MostCritical(sigs, limit);
    assert r == sorted[..|r|];
    assert y in multiset(sorted);
    var j :| 0 <= j < |sorted| && sorted[j] == y;
    var i :| 0 <= i < |r| && r[i] == x;
    forall k | 0 <= k < |r| ensures sorted[k] != y {
      assert sorted[k] == r[k];
    }
    assert |r| <= j;
  }

  // ---------------------------------------------------------------- grouping and summary

  /** `groupedByScope`: one group per scope present, which together hold every signal once. */
  function GroupedByScope(sigs: seq<RiskSignal>): (r: seq<Group<SignalScope, RiskSignal>>)
    ensures Total(r) == |sigs|
    ensures DistinctKeys(r)
  {
    GroupByTotal(sigs, ScopeOf);
    GroupByKeys(sigs, ScopeOf);
    GroupBy(sigs, ScopeOf)
  }

  /** `groupedByRiskLevel`: one group per level present, which together hold every signal once. */
  function GroupedByRiskLevel(sigs: seq<RiskSignal>): (r: seq<Group<RiskLevel, RiskSignal>>)
    ensures Total(r) == |sigs|
    ensures DistinctKeys(r)
  {
    GroupByTotal(sigs, GetRiskLevel);
    GroupByKeys(sigs, GetRiskLevel);
    GroupBy(sigs, GetRiskLevel)
  }

  /** Each scope group holds exactly `byScope` of that scope. */
  lemma GroupedByScopeMatchesFilter(sigs: seq<RiskSignal>, scope: SignalScope)
    ensures Lookup(GroupedByScope(sigs), scope) == ByScope(sigs, scope)
  {
    GroupByLookup(sigs, ScopeOf, scope);
  }

  /** Each level group holds exactly the signals of that level, and no signal is Unknown. */
  lemma GroupedByRiskLevelPartitions(sigs: seq<RiskSignal>, level: RiskLevel)
    ensures forall s :: s in Lookup(GroupedByRiskLevel(sigs), level) <==> s in sigs && Level(s.score) == level
    ensures Lookup(GroupedByRiskLevel(sigs), Unknown) == []
  {
    GroupByLookup(sigs, GetRiskLevel, level);
    GroupByLookup(sigs, GetRiskLevel, Unknown);
    KeyFilterNone(sigs, GetRiskLevel, Unknown);
  }

  /** The summary statistics. Only the empty summary has an above-average count. */
  datatype Summary = Summary(
    totalSignals: nat,
    flaggedSignals: nat,
    highRiskSignals: nat,
    aboveAverageSignals: Option<nat>,
    overallRiskScore: real,
    weightedRiskScore: real,
    maxScore: real,
    minScore: real,
    avgScore: real,
    byScope: Option<seq<Group<SignalScope, RiskSignal>>>,
    byRiskLevel: Option<seq<Group<RiskLevel, RiskSignal>>>)

  /** `getSummary`. */
  function GetSummary(sigs: seq<RiskSignal>): (r: Summary)
    ensures r.totalSignals == |sigs|
    ensures r.flaggedSignals == |Flagged(sigs, 0.5)| && r.highRiskSignals == |HighRisk(sigs, 0.8)|
    ensures sigs == [] <==> r.aboveAverageSignals.Some?
    ensures sigs == [] ==> r.overallRiskScore == 0.0 && r.weightedRiskScore == 0.0 && r.maxScore == 0.0
    ensures sigs != [] ==> r.minScore <= r.avgScore <= r.maxScore
    ensures sigs != [] ==> r.minScore <= r.weightedRiskScore <= r.maxScore
    ensures r.byScope.Some? ==> Total(r.byScope.value) == |sigs|
    ensures sigs == [] ==> r.minScore == 0.0 && r.avgScore == 0.0 && r.aboveAverageSignals == Some(0)
                           && r.byScope.None? && r.byRiskLevel.None?
    ensures sigs != [] ==> r.overallRiskScore == OverallRiskScore(sigs).value == r.avgScore
                           && r.weightedRiskScore == WeightedScore(sigs, map[]).value
                           && r.maxScore == MaxScore(sigs) && r.minScore == MinScore(sigs)
                           && r.byScope == Some(GroupedByScope(sigs)) && r.byRiskLevel == Some(GroupedByRiskLevel(sigs))
  {
    if sigs == [] then
      Summary(0, 0, 0, Some(0), 0.0, 0.0, 0.0, 0.0, 0.0, None, None)
    else
      MeanBetweenMinMax(sigs);
      WeightedBetweenMinMax(sigs, map[]);
      GroupByTotal(sigs, ScopeOf);
      var mean := OverallRiskScore(sigs).value;
      Summary(|sigs|, |Flagged(sigs, 0.5)|, |HighRisk(sigs, 0.8)|, None,
              mean, WeightedScore(sigs, map[]).value,
              MaxScore(sigs), MinScore(sigs), mean,
              Some(GroupedByScope(sigs)), Some(GroupedByRiskLevel(sigs)))
  }

  /** `toArray`: one serialised record per signal, in order. */
  function ToRecords(sigs: seq<RiskSignal>): (r: seq<SignalRecord>)
    ensures |r| == |sigs|
    ensures forall i :: 0 <= i < |sigs| ==> r[i] == ToRecord(sigs[i])
    ensures forall i :: 0 <= i < |sigs| ==> r[i].name == sigs[i].name && r[i].isFlagged == (sigs[i].score.value > 0.5)
  {
    seq(|sigs|, i requires 0 <= i < |sigs| => ToRecord(sigs[i]))
  }

  // ---------------------------------------------------------------- toArray as written

  /**
   * What a collection of this class can hold once a Laravel operation has rebuilt it with
   * `new static`: signals, the arrays `map` produced from them, or the nested collections
   * `groupBy` produced.
   */
  datatype Item = SignalItem(signal: RiskSignal) | RecordItem(record: SignalRecord) | GroupItem(group: seq<RiskSignal>)

  /** How a call ends: with a value, with an exception, or not within the nested calls allowed. */
  datatype Ending<T> = Returns(value: T) | Throws(error: string) | Unfinished

  function TypeName(x: Item): string {
    match x
    case SignalItem(_) => "Ninja\\Larasoul\\DTO\\RiskSignal"
    case RecordItem(_) => "array"
    case GroupItem(_) => "Ninja\\Larasoul\\Collections\\RiskSignalCollection"
  }

  /** The TypeError of the `fn (RiskSignal $signal)` closure when it is handed `x`. */
  function ClosureTypeError(x: Item): string {
    "{closure}(): Argument #1 ($signal) must be of type Ninja\\Larasoul\\DTO\\RiskSignal, "
      + TypeName(x) + " given"
  }

  /** The first item that is not a signal. */
  function FirstNonSignal(items: seq<Item>): (r: Option<Item>)
    ensures r.Some? <==> exists i :: 0 <= i < |items| && !items[i].SignalItem?
    ensures r.Some? ==> !r.value.SignalItem? && r.value in items
  {
    if items == [] then None
    else if !items[0].SignalItem? then Some(items[0])
    else
      var rest := FirstNonSignal(items[1..]);
      assert forall i :: 1 <= i < |items| ==> items[i] == items[1..][i - 1];
      rest
  }

  function SignalItems(sigs: seq<RiskSignal>): seq<Item> {
    seq(|sigs|, i requires 0 <= i < |sigs| => SignalItem(sigs[i]))
  }

  function GroupCollections<K>(groups: seq<Group<K, RiskSignal>>): seq<Item> {
    seq(|groups|, i requires 0 <= i < |groups| => GroupItem(groups[i].items))
  }

  /**
   * The `toArray` override as written, allowed `depth` nested calls. `map` applies the
   * RiskSignal-typed closure to each item in order (the first other item throws) and builds
   * its result with `new static`, so the trailing `->toArray()` runs this override again,
   * now on the arrays the closure returned. The recursion never bottoms out: the model
   * returns Unfinished once `depth` is spent.
   */
  function ToArrayAsWritten(items: seq<Item>, depth: nat): (r: Ending<seq<SignalRecord>>)
    decreases depth
  {
    if depth == 0 then Unfinished
    else match FirstNonSignal(items)
      case Some(x) => Throws(ClosureTypeError(x))
      case None =>
        ToArrayAsWritten(seq(|items|, i requires 0 <= i < |items| => RecordItem(ToRecord(items[i].signal))),
                         depth - 1)
  }

  /** The override never returns a value, at any depth. */
  lemma {:induction false} ToArrayNeverReturns(items: seq<Item>, depth: nat)
    ensures !ToArrayAsWritten(items, depth).Returns?
    decreases depth
  {
    if depth > 0 && FirstNonSignal(items).None? {
      ToArrayNeverReturns(seq(|items|, i requires 0 <= i < |items| => RecordItem(ToRecord(items[i].signal))),
                          depth - 1);
    }
  }

  /** On an empty collection the override calls itself forever. */
  lemma {:induction false} EmptyToArrayUnfinished(depth: nat)
    ensures ToArrayAsWritten([], depth) == Unfinished
    decreases depth
  {
    if depth > 0 {
      EmptyToArrayUnfinished(depth - 1);
    }
  }

  /**
   * `toArray` as written on a collection of signals: with at least two nested calls allowed,
   * a non-empty collection throws the closure's TypeError on the first record, and an empty
   * one is still recursing; at no depth does it return.
   */
  function ToRecordsAsWritten(sigs: seq<RiskSignal>, depth: nat): (r: Ending<seq<SignalRecord>>)
    ensures !r.Returns?
    ensures sigs == [] ==> r == Unfinished
    ensures sigs != [] && depth >= 2 ==> r == Throws(ClosureTypeError(RecordItem(ToRecord(sigs[0]))))
  {
    var items := SignalItems(sigs);
    ToArrayNeverReturns(items, depth);
    if sigs == [] then
      assert items == [];
      EmptyToArrayUnfinished(depth);
      ToArrayAsWritten(items, depth)
    else if depth >= 2 then
      SignalsToArrayThrows(sigs, depth);
      ToArrayAsWritten(items, depth)
    else
      ToArrayAsWritten(items, depth)
  }

  /** The first call maps the signals to arrays; the second hands the first array to the closure. */
  lemma SignalsToArrayThrows(sigs: seq<RiskSignal>, depth: nat)
    requires sigs != [] && depth >= 2
    ensures ToArrayAsWritten(SignalItems(sigs), depth) == Throws(ClosureTypeError(RecordItem(ToRecord(sigs[0]))))
  {
    var items := SignalItems(sigs);
    var records := seq(|items|, i requires 0 <= i < |items| => RecordItem(ToRecord(items[i].signal)));
    assert FirstNonSignal(items).None? by {
      assert forall i :: 0 <= i < |items| ==> items[i].SignalItem?;
    }
    assert ToArrayAsWritten(items, depth) == ToArrayAsWritten(records, depth - 1);
    assert FirstNonSignal(records) == Some(records[0]);
  }

  /**
   * `groupedByScope` as written: `groupBy` nests each scope's signals in a collection of this
   * class, so the closure of `toArray` is handed a collection and throws; with no signals
   * there is no group and `toArray` recurses forever. It never returns.
   */
  function GroupedByScopeAsWritten(sigs: seq<RiskSignal>, depth: nat): (r: Ending<seq<SignalRecord>>)
    ensures !r.Returns?
    ensures sigs == [] ==> r == Unfinished
    ensures sigs != [] && depth >= 1 ==> r.Throws? && r.error == ClosureTypeError(GroupItem([]))
  {
    assert sigs != [] ==> GroupedByScope(sigs) != [];
    GroupedToArray(GroupedByScope(sigs), depth)
  }

  /** `groupedByRiskLevel` as written: the same failure as `groupedByScope`. */
  function GroupedByRiskLevelAsWritten(sigs: seq<RiskSignal>, depth: nat): (r: Ending<seq<SignalRecord>>)
    ensures !r.Returns?
    ensures sigs == [] ==> r == Unfinished
    ensures sigs != [] && depth >= 1 ==> r.Throws? && r.error == ClosureTypeError(GroupItem([]))
  {
    assert sigs != [] ==> GroupedByRiskLevel(sigs) != [];
    GroupedToArray(GroupedByRiskLevel(sigs), depth)
  }

  /** `toArray` on the outer collection `groupBy` built: the first group makes the closure throw. */
  function GroupedToArray<K>(groups: seq<Group<K, RiskSignal>>, depth: nat): (r: Ending<seq<SignalRecord>>)
    ensures !r.Returns?
    ensures groups == [] ==> r == Unfinished
    ensures groups != [] && depth >= 1 ==> r.Throws? && r.error == ClosureTypeError(GroupItem([]))
  {
    var items := GroupCollections(groups);
    ToArrayNeverReturns(items, depth);
    if groups == [] then
      assert items == [];
      EmptyToArrayUnfinished(depth);
      ToArrayAsWritten(items, depth)
    else
      assert depth >= 1 ==> FirstNonSignal(items) == Some(items[0]);
      ToArrayAsWritten(items, depth)
  }

  /**
   * `getSummary` as written: the empty collection returns early with the empty summary; any
   * other reaches `groupedByScope()` and throws. It returns exactly on the empty collection.
   */
  function GetSummaryAsWritten(sigs: seq<RiskSignal>, depth: nat): (r: Ending<Summary>)
    ensures r.Returns? <==> sigs == []
    ensures sigs == [] ==> r.value == GetSummary(sigs)
    ensures sigs != [] && depth >= 1 ==> r == Throws(ClosureTypeError(GroupItem([])))
  {
    if sigs == [] then Returns(GetSummary(sigs))
    else match GroupedByScopeAsWritten(sigs, depth)
      case Throws(e) => Throws(e)
      case Unfinished => Unfinished
      case Returns(_) =>
        match GroupedByRiskLevelAsWritten(sigs, depth)
        case Throws(e) => Throws(e)
        case Unfinished => Unfinished
        case Returns(_) => Returns(GetSummary(sigs))
  }

  // ---------------------------------------------------------------- legacy keys

  function Lower(c: char): char {
    if 'A' <= c <= 'Z' then (c as int + 32) as char else c
  }

  /** `ucwords(name, '_')` followed by removing the underscores. */
  function StudlyFrom(s: string, capitalise: bool): string {
    if s == [] then []
    else if s[0] == '_' then StudlyFrom(s[1..], true)
    else [if capitalise then Upper(s[0]) else s[0]] + StudlyFrom(s[1..], false)
  }

  /** The legacy camel-case key of a signal name, `lcfirst(str_replace('_', '', ucwords(name, '_')))`. */
  function LegacyKey(name: string): (r: string)
    ensures '_' !in r
  {
    StudlyNoUnderscore(name, true);
    var studly := StudlyFrom(name, true);
    if studly == [] then [] else [Lower(studly[0])] + studly[1..]
  }

  lemma {:induction false} StudlyNoUnderscore(s: string, capitalise: bool)
    ensures '_' !in StudlyFrom(s, capitalise)
  {
    if s != [] {
      StudlyNoUnderscore(s[1..], s[0] == '_');
    }
  }

  /** No later signal shares the legacy key of the signal at `i`. */
  predicate LastOfKey(sigs: seq<RiskSignal>, i: nat)
    requires i < |sigs|
  {
    forall j :: i < j < |sigs| ==> LegacyKey(sigs[j].name) != LegacyKey(sigs[i].name)
  }

  /** A signal that is last of its key in `sigs` is last of its key in any prefix holding it. */
  lemma LastOfKeyPrefix(sigs: seq<RiskSignal>, i: nat, n: nat)
    requires i < n <= |sigs| && LastOfKey(sigs, i)
    ensures LastOfKey(sigs[..n], i)
  {
    forall j | i < j < n
      ensures LegacyKey(sigs[..n][j].name) != LegacyKey(sigs[..n][i].name)
    {
      assert sigs[..n][j] == sigs[j];
    }
  }

  /**
   * The legacy flag map: the keys are those of the signals, and each key holds the flag of
   * the last signal with that key (a later signal overwrites an earlier one).
   */
  function LegacyFlags(sigs: seq<RiskSignal>): (r: map<string, bool>)
    ensures r.Keys == set s | s in sigs :: LegacyKey(s.name)
    ensures forall i :: 0 <= i < |sigs| && LastOfKey(sigs, i) ==> r[LegacyKey(sigs[i].name)] == IsFlagged(sigs[i], 0.5)
  {
    if sigs == [] then map[]
    else
      var init, last := sigs[..|sigs| - 1], sigs[|sigs| - 1];
      assert sigs == init + [last];
      var r := LegacyFlags(init)[LegacyKey(last.name) := IsFlagged(last, DefaultFlagThreshold)];
      assert forall i :: 0 <= i < |init| && LastOfKey(sigs, i) ==> LastOfKey(init, i) by {
        forall i | 0 <= i < |init| && LastOfKey(sigs, i) ensures LastOfKey(init, i) {
          LastOfKeyPrefix(sigs, i, |init|);
        }
      }
      r
  }

  /**
   * The legacy score map: the keys are those of the signals, and each key holds the score of
   * the last signal with that key (a later signal overwrites an earlier one).
   */
  function LegacyScores(sigs: seq<RiskSignal>): (r: map<string, real>)
    ensures r.Keys == set s | s in sigs :: LegacyKey(s.name)
    ensures forall i :: 0 <= i < |sigs| && LastOfKey(sigs, i) ==> r[LegacyKey(sigs[i].name)] == sigs[i].score.value
  {
    if sigs == [] then map[]
    else
      var init, last := sigs[..|sigs| - 1], sigs[|sigs| - 1];
      assert sigs == init + [last];
      var r := LegacyScores(init)[LegacyKey(last.name) := last.score.value];
      assert forall i :: 0 <= i < |init| && LastOfKey(sigs, i) ==> LastOfKey(init, i) by {
        forall i | 0 <= i < |init| && LastOfKey(sigs, i) ensures LastOfKey(init, i) {
          LastOfKeyPrefix(sigs, i, |init|);
        }
      }
      r
  }

  /** One more signal adds or overwrites its own key. */
  lemma LegacyFlagsSnoc(sigs: seq<RiskSignal>, i: nat)
    requires i < |sigs|
    ensures LegacyFlags(sigs[..i + 1]) == LegacyFlags(sigs[..i])[LegacyKey(sigs[i].name) := IsFlagged(sigs[i], DefaultFlagThreshold)]
  {
    assert sigs[..i + 1][..i] == sigs[..i];
  }

  /** One more signal adds or overwrites its own key. */
  lemma LegacyScoresSnoc(sigs: seq<RiskSignal>, i: nat)
    requires i < |sigs|
    ensures LegacyScores(sigs[..i + 1]) == LegacyScores(sigs[..i])[LegacyKey(sigs[i].name) := sigs[i].score.value]
  {
    assert sigs[..i + 1][..i] == sigs[..i];
  }

  // ---------------------------------------------------------------- raw input

  /** The 'scope' entry of an array: a backing value of a scope, or some other string. */
  datatype RawScope = KnownScope(scope: SignalScope) | UnrecognisedScope(value: string)

  /**
   * The 'score' entry of an array: absent, null, or a number. Reading an absent key is an
   * "Undefined array key" warning, which Laravel's error handler turns into an exception;
   * null compares as not greater than 0.
   */
  datatype RawScore = MissingScore | NullScore | ScoreValue(value: real)

  /** One item handed to `fromArray`. */
  datatype RawEntry =
    | ArrayEntry(name: Option<string>, score: RawScore, scope: Option<RawScope>)
    | SignalEntry(signal: RiskSignal)
    | OtherEntry

  const UndefinedScoreKey := "Undefined array key \"score\""

  /** The entry carries a positive score and is therefore kept. */
  predicate Keeps(e: RawEntry) {
    match e
    case ArrayEntry(_, score, _) => score.ScoreValue? && score.value > 0.0
    case SignalEntry(sig) => sig.score.value > 0.0
    case OtherEntry => false
  }

  /** An array entry without a 'score' key makes the `> 0` test throw. */
  predicate MissingScoreKey(e: RawEntry) {
    e.ArrayEntry? && e.score.MissingScore?
  }

  /** A kept array entry whose scope is no scope's backing value makes `SignalScope::from` throw. */
  predicate BadScope(e: RawEntry) {
    Keeps(e) && e.ArrayEntry? && e.scope.Some? && e.scope.value.UnrecognisedScope?
  }

  /** The signal a kept entry becomes: name defaults to "unknown", scope to DeviceNetwork. */
  function Convert(e: RawEntry): (r: RiskSignal)
    requires Keeps(e) && !BadScope(e)
    ensures e.ArrayEntry? ==> r.name == e.name.GetOr("unknown") && r.score.value == e.score.value
    ensures e.ArrayEntry? && e.scope.None? ==> r.scope == DeviceNetwork
    ensures e.SignalEntry? ==> r == e.signal
  {
    match e
    case ArrayEntry(name, score, scope) =>
      RiskSignal(name.GetOr("unknown"), RiskScore(score.value),
                 if scope.Some? then scope.value.scope else DeviceNetwork)
    case SignalEntry(sig) => sig
  }

  /** The entry makes `fromArray` throw: no 'score' key, or a kept entry's unrecognised scope. */
  predicate Rejects(e: RawEntry) {
    MissingScoreKey(e) || BadScope(e)
  }

  /** One step of `fromArray`: what the entry adds, or the error it raises. */
  function Admit(e: RawEntry): Result<seq<RiskSignal>, string> {
    if MissingScoreKey(e) then Failure(UndefinedScoreKey)
    else if BadScope(e) then Failure(e.scope.value.value)
    else if Keeps(e) then Success([Convert(e)])
    else Success([])
  }

  /** `fromArray`, specified entry by entry in input order. */
  function Ingest(data: seq<RawEntry>): Result<seq<RiskSignal>, string> {
    if data == [] then Success([])
    else match Ingest(data[..|data| - 1])
      case Failure(e) => Failure(e)
      case Success(acc) =>
        match Admit(data[|data| - 1])
        case Failure(e) => Failure(e)
        case Success(more) => Success(acc + more)
  }

  function ConvertAll(es: seq<RawEntry>): seq<RiskSignal>
    requires forall e :: e in es ==> Keeps(e) && !BadScope(e)
  {
    seq(|es|, i requires 0 <= i < |es| => Convert(es[i]))
  }

  /**
   * `fromArray` fails exactly when some array entry has no 'score' key or some kept entry has
   * an unrecognised scope; otherwise it keeps, in input order, exactly the entries with a
   * positive score.
   */
  lemma {:induction false} IngestKeepsPositive(data: seq<RawEntry>)
    ensures Ingest(data).Failure? <==> exists e :: e in data && Rejects(e)
    ensures Ingest(data).Success? ==>
      (forall e :: e in Filter(data, Keeps) ==> Keeps(e) && !BadScope(e)) &&
      Ingest(data).value == ConvertAll(Filter(data, Keeps))
  {
    IngestFailure(data);
    if data != [] && Ingest(data).Success? {
      var init, last := data[..|data| - 1], data[|data| - 1];
      assert data == init + [last];
      assert Ingest(init).Success?;
      IngestKeepsPositive(init);
      FilterSnoc(init, last, Keeps);
      assert last in data;
      assert !Rejects(last);
      if Keeps(last) {
        ConvertAllSnoc(Filter(init, Keeps), last);
      }
    }
  }

  lemma ConvertAllSnoc(es: seq<RawEntry>, x: RawEntry)
    requires forall e :: e in es ==> Keeps(e) && !BadScope(e)
    requires Keeps(x) && !BadScope(x)
    ensures ConvertAll(es + [x]) == ConvertAll(es) + [Convert(x)]
  {
  }

  /** `fromArray` fails exactly when some entry rejects. */
  lemma {:induction false} IngestFailure(data: seq<RawEntry>)
    ensures Ingest(data).Failure? <==> exists e :: e in data && Rejects(e)
  {
    if data != [] {
      var init, last := data[..|data| - 1], data[|data| - 1];
      assert data == init + [last];
      IngestFailure(init);
      if Ingest(data).Failure? && Ingest(init).Success? {
        assert Rejects(last);
      }
      if exists e :: e in data && Rejects(e) {
        var e :| e in data && Rejects(e);
        if e != last {
          assert e in init;
        }
      }
      if exists e :: e in init && Rejects(e) {
        var e :| e in init && Rejects(e);
        assert e in data;
      }
    }
  }

  /** The signal-score DTOs of a Verisoul response. */
  datatype DeviceNetworkSignals = DeviceNetworkSignals(
    deviceRisk: real, proxy: real, vpn: real, datacenter: real, tor: real, spoofedIp: real,
    recentFraudIp: real, deviceNetworkMismatch: real, locationSpoofing: real)

  /** The document signals; the enum-valued fields play no part in the collection. */
  datatype DocumentSignals = DocumentSignals(idAge: int, idFaceMatchScore: real)

  datatype ReferringSessionSignals = ReferringSessionSignals(
    impossibleTravel: real, ipMismatch: real, userAgentMismatch: real,
    deviceTimezoneMismatch: real, ipTimezoneMismatch: real)

  /** The nine device-and-network candidates, in the order they are added. */
  function DeviceNetworkCandidates(d: DeviceNetworkSignals): (r: seq<RiskSignal>)
    ensures |r| == 9 && forall s :: s in r ==> s.scope == DeviceNetwork
  {
    [RiskSignal("device_risk", RiskScore(d.deviceRisk), DeviceNetwork),
     RiskSignal("proxy", RiskScore(d.proxy), DeviceNetwork),
     RiskSignal("vpn", RiskScore(d.vpn), DeviceNetwork),
     RiskSignal("datacenter", RiskScore(d.datacenter), DeviceNetwork),
     RiskSignal("tor", RiskScore(d.tor), DeviceNetwork),
     RiskSignal("spoofed_ip", RiskScore(d.spoofedIp), DeviceNetwork),
     RiskSignal("recent_fraud_ip", RiskScore(d.recentFraudIp), DeviceNetwork),
     RiskSignal("device_network_mismatch", RiskScore(d.deviceNetworkMismatch), DeviceNetwork),
     RiskSignal("location_spoofing", RiskScore(d.locationSpoofing), DeviceNetwork)]
  }

  /** The two scored document candidates; the document age is converted to a real. */
  function DocumentCandidates(d: DocumentSignals): (r: seq<RiskSignal>)
    ensures |r| == 2 && forall s :: s in r ==> s.scope == Document
  {
    [RiskSignal("id_age", RiskScore(d.idAge as real), Document),
     RiskSignal("id_face_match_score", RiskScore(d.idFaceMatchScore), Document)]
  }

  function ReferringSessionCandidates(d: ReferringSessionSignals): (r: seq<RiskSignal>)
    ensures |r| == 5 && forall s :: s in r ==> s.scope == ReferringSession
  {
    [RiskSignal("impossible_travel", RiskScore(d.impossibleTravel), ReferringSession),
     RiskSignal("ip_mismatch", RiskScore(d.ipMismatch), ReferringSession),
     RiskSignal("user_agent_mismatch", RiskScore(d.userAgentMismatch), ReferringSession),
     RiskSignal("device_timezone_mismatch", RiskScore(d.deviceTimezoneMismatch), ReferringSession),
     RiskSignal("ip_timezone_mismatch", RiskScore(d.ipTimezoneMismatch), ReferringSession)]
  }

  predicate PositiveSignal(s: RiskSignal) {
    s.score.value > 0.0
  }

  /** The signals the combined factory collects from whichever groups are present. */
  function VerisoulSignals(dn: Option<DeviceNetworkSignals>, doc: Option<DocumentSignals>,
                           rs: Option<ReferringSessionSignals>): seq<RiskSignal>
  {
    (if dn.Some? then Filter(DeviceNetworkCandidates(dn.value), PositiveSignal) else [])
    + (if doc.Some? then Filter(DocumentCandidates(doc.value), PositiveSignal) else [])
    + (if rs.Some? then Filter(ReferringSessionCandidates(rs.value), PositiveSignal) else [])
  }

  /**
   * The combined factory never yields an Account or Session signal, every signal is
   * positive, and at most 16 signals come out.
   */
  lemma VerisoulSignalsShape(dn: Option<DeviceNetworkSignals>, doc: Option<DocumentSignals>,
                             rs: Option<ReferringSessionSignals>)
    ensures forall s :: s in VerisoulSignals(dn, doc, rs) ==>
              s.score.value > 0.0 && s.scope != Account && s.scope != Session
    ensures |VerisoulSignals(dn, doc, rs)| <= 16
  {
  }

  // ---------------------------------------------------------------- the mutable collection

  class RiskSignalCollection {
    var signals: seq<RiskSignal>

    constructor ()
      ensures signals == []
    {
      signals := [];
    }

    /** `addSignal`: appends the signal iff its score is positive; the scope defaults to DeviceNetwork. */
    method AddSignal(name: string, score: real, scope: Option<SignalScope>)
      modifies this
      ensures signals == old(signals) +
        (if score > 0.0 then [RiskSignal(name, RiskScore(score), scope.GetOr(DeviceNetwork))] else [])
    {
      var s := RiskScore(score);
      if IsPositive(s) {
        signals := signals + [RiskSignal(name, s, scope.GetOr(DeviceNetwork))];
      }
    }

    /** Add each candidate in turn, as the factories do. */
    method AddCandidates(cands: seq<RiskSignal>)
      modifies this
      ensures signals == old(signals) + Filter(cands, PositiveSignal)
    {
      var i := 0;
      while i < |cands|
        invariant 0 <= i <= |cands|
        invariant signals == old(signals) + Filter(cands[..i], PositiveSignal)
      {
        var c := cands[i];
        FilterPrefix(cands, i, PositiveSignal);
        AddSignal(c.name, c.score.value, Some(c.scope));
        assert RiskSignal(c.name, RiskScore(c.score.value), c.scope) == c;
        i := i + 1;
      }
      assert cands[..|cands|] == cands;
    }

    /**
     * `updateSignal`: the first signal of that name is replaced in place with the new
     * score, keeping its position and scope, with no positivity check. Otherwise the
     * call falls back to `addSignal` with `average` in the scope position, which throws
     * a TypeError when `average` is given.
     */
    method UpdateSignal(name: string, score: real, average: Option<real>) returns (r: Result<(), string>)
      modifies this
      ensures FirstIndex(old(signals), name).Some? ==>
        var i := FirstIndex(old(signals), name).value;
        r.Success? && signals == old(signals)[i := RiskSignal(name, RiskScore(score), old(signals)[i].scope)]
      ensures FirstIndex(old(signals), name).None? && average.Some? ==>
        r.Failure? && signals == old(signals)
      ensures FirstIndex(old(signals), name).None? && average.None? ==>
        r.Success? && signals == old(signals) +
          (if score > 0.0 then [RiskSignal(name, RiskScore(score), DeviceNetwork)] else [])
    {
      var index := FirstIndex(signals, name);
      if index.Some? {
        var existing := signals[index.value];
        signals := signals[index.value := RiskSignal(name, RiskScore(score), existing.scope)];
        r := Success(());
      } else if average.Some? {
        r := Failure("TypeError: a float was passed where a signal scope is expected");
      } else {
        AddSignal(name, score, None);
        r := Success(());
      }
    }

    /** `getWeightedRiskScore`, accumulating both sums in one pass. */
    method WeightedRiskScore(custom: map<SignalScope, Option<real>>) returns (r: RiskScore)
      ensures r == WeightedScore(signals, custom)
    {
      if signals == [] {
        return RiskScore(0.0);
      }
      var totalWeight := 0.0;
      var weightedSum := 0.0;
      var i := 0;
      while i < |signals|
        invariant 0 <= i <= |signals|
        invariant totalWeight == TotalWeight(signals[..i], Weights(custom))
        invariant weightedSum == WeightedSum(signals[..i], Weights(custom))
      {
        var signal := signals[i];
        var weight := Weight(custom, signal.scope);
        assert signals[..i + 1][..i] == signals[..i];
        weightedSum := weightedSum + signal.score.value * weight;
        totalWeight := totalWeight + weight;
        i := i + 1;
      }
      assert signals[..|signals|] == signals;
      r := RiskScore(if totalWeight > 0.0 then weightedSum / totalWeight else 0.0);
    }

    /** `toLegacyRiskSignals`, built entry by entry. */
    method ToLegacyRiskSignals() returns (result: map<string, bool>)
      ensures result == LegacyFlags(signals)
    {
      var sigs := signals;
      result := map[];
      var i := 0;
      while i < |sigs|
        invariant 0 <= i <= |sigs|
        invariant result == LegacyFlags(sigs[..i])
      {
        LegacyFlagsSnoc(sigs, i);
        result := result[LegacyKey(sigs[i].name) := IsFlagged(sigs[i], DefaultFlagThreshold)];
        i := i + 1;
      }
      assert sigs[..|sigs|] == sigs;
    }

    /** `toLegacyRiskSignalScores`, built entry by entry. */
    method ToLegacyRiskSignalScores() returns (result: map<string, real>)
      ensures result == LegacyScores(signals)
    {
      var sigs := signals;
      result := map[];
      var i := 0;
      while i < |sigs|
        invariant 0 <= i <= |sigs|
        invariant result == LegacyScores(sigs[..i])
      {
        LegacyScoresSnoc(sigs, i);
        result := result[LegacyKey(sigs[i].name) := sigs[i].score.value];
        i := i + 1;
      }
      assert sigs[..|sigs|] == sigs;
    }
  }

  /**
   * `fromArray`: entries are examined in order; an array entry without a 'score' key, or a
   * kept one with an unrecognised scope, aborts the build.
   */
  method FromArray(data: seq<RawEntry>) returns (r: Result<RiskSignalCollection, string>)
    ensures r.Failure? <==> Ingest(data).Failure?
    ensures r.Failure? ==> r.error == Ingest(data).error
    ensures r.Success? ==> fresh(r.value) && r.value.signals == Ingest(data).value
  {
    var collection := new RiskSignalCollection();
    var i := 0;
    while i < |data|
      invariant 0 <= i <= |data|
      invariant Ingest(data[..i]) == Success(collection.signals)
    {
      assert data[..i + 1][..i] == data[..i];
      var e := data[i];
      label Body:
      assert data[..i + 1][i] == e;
      assert Ingest(data[..i + 1]) == if Admit(e).Failure? then Failure(Admit(e).error)
                                      else Success(collection.signals + Admit(e).value);
      match e {
        case ArrayEntry(name, score, scope) =>
          if score.MissingScore? {
            assert Ingest(data[..i + 1]).Failure?;
            IngestPrefixFailure(data, i + 1);
            return Failure(UndefinedScoreKey);
          }
          if score.ScoreValue? && score.value > 0.0 {
            if scope.Some? && scope.value.UnrecognisedScope? {
              assert Ingest(data[..i + 1]).Failure?;
              IngestPrefixFailure(data, i + 1);
              return Failure(scope.value.value);
            }
            assert Admit(e) == Success([Convert(e)]);
            collection.AddSignal(name.GetOr("unknown"), score.value,
                                 Some(if scope.Some? then scope.value.scope else DeviceNetwork));
          } else {
            assert Admit(e) == Success([]);
          }
        case SignalEntry(sig) =>
          if sig.score.value > 0.0 {
            assert Admit(e) == Success([sig]);
            collection.signals := collection.signals + [sig];
          } else {
            assert Admit(e) == Success([]);
          }
        case OtherEntry =>
          assert Admit(e) == Success([]);
      }
      assert old@Body(collection.signals) + [] == old@Body(collection.signals);
      i := i + 1;
    }
    assert data[..|data|] == data;
    r := Success(collection);
  }

  /** Once a prefix fails, so does the whole input. */
  lemma {:induction false} IngestPrefixFailure(data: seq<RawEntry>, n: nat)
    requires n <= |data|
    requires Ingest(data[..n]).Failure?
    ensures Ingest(data).Failure? && Ingest(data).error == Ingest(data[..n]).error
    decreases |data| - n
  {
    if n == |data| {
      assert data[..n] == data;
    } else {
      assert data[..n + 1][..n] == data[..n];
      IngestPrefixFailure(data, n + 1);
    }
  }

  /** `fromDeviceNetworkSignals`. */
  method FromDeviceNetworkSignals(d: DeviceNetworkSignals) returns (c: RiskSignalCollection)
    ensures fresh(c) && c.signals == Filter(DeviceNetworkCandidates(d), PositiveSignal)
  {
    c := new RiskSignalCollection();
    c.AddCandidates(DeviceNetworkCandidates(d));
  }

  /** `fromDocumentSignals`. */
  method FromDocumentSignals(d: DocumentSignals) returns (c: RiskSignalCollection)
    ensures fresh(c) && c.signals == Filter(DocumentCandidates(d), PositiveSignal)
  {
    c := new RiskSignalCollection();
    c.AddCandidates(DocumentCandidates(d));
  }

  /** `fromReferringSessionSignals`. */
  method FromReferringSessionSignals(d: ReferringSessionSignals) returns (c: RiskSignalCollection)
    ensures fresh(c) && c.signals == Filter(ReferringSessionCandidates(d), PositiveSignal)
  {
    c := new RiskSignalCollection();
    c.AddCandidates(ReferringSessionCandidates(d));
  }

  /** `fromVerisoulSignals`: the present groups, merged in the order device, document, session. */
  method FromVerisoulSignals(dn: Option<DeviceNetworkSignals>, doc: Option<DocumentSignals>,
                             rs: Option<ReferringSessionSignals>) returns (c: RiskSignalCollection)
    ensures fresh(c) && c.signals == VerisoulSignals(dn, doc, rs)
  {
    var dnPart, docPart, rsPart := [], [], [];
    if dn.Some? {
      var part := FromDeviceNetworkSignals(dn.value);
      dnPart := part.signals;
    }
    if doc.Some? {
      var part := FromDocumentSignals(doc.value);
      docPart := part.signals;
    }
    if rs.Some? {
      var part := FromReferringSessionSignals(rs.value);
      rsPart := part.signals;
    }
    c := new RiskSignalCollection();
    c.signals := dnPart + docPart + rsPart;
  }
}
