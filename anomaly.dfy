/** The per-target anomaly detector: five features scored against a smoothed baseline,
    a weighted composite with score floors, the three strongest contributors, and the
    exponentially weighted update of the baseline (backend/src/detection/anomaly.js). */
module Anomaly {
  import opened Common
  import opened Types

  /** The base smoothing factor of the moving average. */
  const Smoothing: real := 0.08

  /** The five baseline features, in the order the baseline object lists them. */
  datatype FeatureName = RpsName | ConcentrationName | EntropyName | VarianceName | BurstinessName

  function NameOf(k: FeatureName): string
  {
    match k
    case RpsName => "rps"
    case ConcentrationName => "endpointConcentration"
    case EntropyName => "headerEntropy"
    case VarianceName => "payloadVariance"
    case BurstinessName => "burstiness"
  }

  /** The position of a feature in the baseline object and in the contributor list. */
  function Rank(k: FeatureName): (r: nat)
    ensures r < |BaselineKeys| && BaselineKeys[r] == k
  {
    match k
    case RpsName => 0
    case ConcentrationName => 1
    case EntropyName => 2
    case VarianceName => 3
    case BurstinessName => 4
  }

  /** `Object.keys(baseline)`. */
  const BaselineKeys: seq<FeatureName> := [RpsName, ConcentrationName, EntropyName, VarianceName, BurstinessName]

  /** Distinct features have distinct positions, so the position order is a total order. */
  lemma RankInjective(j: FeatureName, k: FeatureName)
    ensures Rank(j) == Rank(k) ==> j == k
  {
  }

  /** One number per baseline feature: the baseline itself, or the scores against it. */
  datatype FeatureVector = FeatureVector(
    rps: real, endpointConcentration: real, headerEntropy: real, payloadVariance: real, burstiness: real)
  {
    function Get(k: FeatureName): real
    {
      match k
      case RpsName => rps
      case ConcentrationName => endpointConcentration
      case EntropyName => headerEntropy
      case VarianceName => payloadVariance
      case BurstinessName => burstiness
    }

    /** `baseline[key] = v`: only the named feature changes. */
    function With(k: FeatureName, v: real): (r: FeatureVector)
      ensures r.Get(k) == v
      ensures forall j :: j != k ==> r.Get(j) == Get(j)
    {
      match k
      case RpsName => this.(rps := v)
      case ConcentrationName => this.(endpointConcentration := v)
      case EntropyName => this.(headerEntropy := v)
      case VarianceName => this.(payloadVariance := v)
      case BurstinessName => this.(burstiness := v)
    }
  }

  /** Two vectors that agree on every feature are equal. */
  lemma VectorsAgree(x: FeatureVector, y: FeatureVector)
    requires forall k :: x.Get(k) == y.Get(k)
    ensures x == y
  {
    assert x.Get(RpsName) == y.Get(RpsName) && x.Get(ConcentrationName) == y.Get(ConcentrationName);
    assert x.Get(EntropyName) == y.Get(EntropyName) && x.Get(VarianceName) == y.Get(VarianceName);
    assert x.Get(BurstinessName) == y.Get(BurstinessName);
  }

  /** The baseline a fresh detector starts from. */
  const InitialBaseline := FeatureVector(2.0, 0.2, 2.5, 2000.0, 0.1)

  /** `b * (1 - alpha) + f * alpha`. */
  function Blend(b: real, f: real, alpha: real): real
  {
    b * (1.0 - alpha) + f * alpha
  }

  /** With a weight in [0, 1], the blend lies between the old and the observed value. */
  lemma BlendBetween(b: real, f: real, alpha: real)
    requires 0.0 <= alpha <= 1.0
    ensures MinReal(b, f) <= Blend(b, f, alpha) <= MaxReal(b, f)
  {
    var lo := MinReal(b, f);
    var hi := MaxReal(b, f);
    ProductNonNegative(hi - lo, alpha);
    ProductNonNegative(hi - lo, 1.0 - alpha);
    if b <= f {
      assert Blend(b, f, alpha) == lo + (hi - lo) * alpha;
      assert hi - Blend(b, f, alpha) == (hi - lo) * (1.0 - alpha);
    } else {
      assert Blend(b, f, alpha) == lo + (hi - lo) * (1.0 - alpha);
      assert hi - Blend(b, f, alpha) == (hi - lo) * alpha;
    }
  }

  /** Every feature of the baseline moved towards the observation by `alpha`. */
  function Smoothed(b: FeatureVector, target: FeatureVector, alpha: real): (r: FeatureVector)
  {
    FeatureVector(
      Blend(b.rps, target.rps, alpha),
      Blend(b.endpointConcentration, target.endpointConcentration, alpha),
      Blend(b.headerEntropy, target.headerEntropy, alpha),
      Blend(b.payloadVariance, target.payloadVariance, alpha),
      Blend(b.burstiness, target.burstiness, alpha))
  }

  /** The smoothed baseline stays between the old baseline and the observation, feature by
      feature; so it stays non-negative when both are. */
  lemma SmoothedBetween(b: FeatureVector, target: FeatureVector, alpha: real)
    requires 0.0 <= alpha <= 1.0
    ensures forall k :: MinReal(b.Get(k), target.Get(k)) <= Smoothed(b, target, alpha).Get(k)
                          <= MaxReal(b.Get(k), target.Get(k))
  {
    forall k
      ensures MinReal(b.Get(k), target.Get(k)) <= Smoothed(b, target, alpha).Get(k)
                <= MaxReal(b.Get(k), target.Get(k))
    {
      BlendBetween(b.Get(k), target.Get(k), alpha);
    }
  }

  predicate NonNegative(v: FeatureVector)
  {
    forall k :: v.Get(k) >= 0.0
  }

  /** `scoreFeature(value, base, higherIsRisky)`: how far the value exceeds (or, when lower is
      risky, falls below) the baseline, as a ratio above 1 clamped to [0, 4] and scaled to [0, 1]. */
  function ScoreFeature(value: real, base: real, higherIsRisky: bool): (r: real)
    ensures 0.0 <= r <= 1.0
    ensures base == 0.0 ==> r == 0.0
  {
    if base == 0.0 then 0.0
    else
      var ratio := if higherIsRisky then value / base else base / MaxReal(value, 0.0001);
      MinReal(MaxReal(ratio - 1.0, 0.0), 4.0) / 4.0
  }

  /** Exactly at or below the baseline a risky-when-high feature scores 0, and from five
      times the baseline on it scores 1. */
  lemma ScoreFeatureEnds(value: real, base: real)
    requires base > 0.0
    ensures value <= base ==> ScoreFeature(value, base, true) == 0.0
    ensures value >= 5.0 * base ==> ScoreFeature(value, base, true) == 1.0
  {
    var ratio := value / base;
    assert ratio * base == value;
    if value <= base {
      assert ratio <= 1.0;
    }
    if value >= 5.0 * base {
      assert ratio >= 5.0;
    }
  }

  /** Against a non-negative baseline, a risky-when-high score never falls as the value grows. */
  lemma ScoreFeatureMonotone(v1: real, v2: real, base: real)
    requires v1 <= v2 && base >= 0.0
    ensures ScoreFeature(v1, base, true) <= ScoreFeature(v2, base, true)
  {
    if base > 0.0 {
      Quotients(v1, v2, base);
    }
  }

  lemma Quotients(v1: real, v2: real, d: real)
    requires v1 <= v2 && d > 0.0
    ensures v1 / d <= v2 / d
  {
    var q1 := v1 / d;
    var q2 := v2 / d;
    assert q1 * d == v1 && q2 * d == v2;
  }

  /** `Math.max(features.rps || 0, features.recentRps || 0)`. */
  function RpsEffective(f: Features): real
  {
    MaxReal(f.rps, f.recentRps)
  }

  /** The five scores against the baseline; header entropy is risky when LOW. */
  function FeatureScores(b: FeatureVector, f: Features): (s: FeatureVector)
  {
    FeatureVector(
      ScoreFeature(RpsEffective(f), b.rps, true),
      ScoreFeature(f.endpointConcentration, b.endpointConcentration, true),
      ScoreFeature(f.headerEntropy, b.headerEntropy, false),
      ScoreFeature(f.payloadVariance, b.payloadVariance, true),
      ScoreFeature(f.burstiness, b.burstiness, true))
  }

  /** The weighted composite: 0.4 rps, 0.2 concentration, 0.2 entropy, 0.1 variance, 0.1 burst. */
  function Composite(s: FeatureVector): real
  {
    s.rps * 0.4 + s.endpointConcentration * 0.2 + s.headerEntropy * 0.2 + s.payloadVariance * 0.1
    + s.burstiness * 0.1
  }

  /** The weights add up to 1, so scores in [0, 1] give a composite in [0, 1]. */
  lemma CompositeInRange(s: FeatureVector)
    requires forall k :: 0.0 <= s.Get(k) <= 1.0
    ensures 0.0 <= Composite(s) <= 1.0
  {
    assert 0.0 <= s.Get(RpsName) <= 1.0 && 0.0 <= s.Get(ConcentrationName) <= 1.0;
    assert 0.0 <= s.Get(EntropyName) <= 1.0 && 0.0 <= s.Get(VarianceName) <= 1.0;
    assert 0.0 <= s.Get(BurstinessName) <= 1.0;
  }

  /** The rps relative to the baseline; the raw rps when the baseline is not positive. */
  function RpsRatio(b: FeatureVector, rpsEffective: real): real
  {
    if b.rps > 0.0 then rpsEffective / b.rps else rpsEffective
  }

  /** The four successive `if (rpsRatio >= …) rpsFloor = …` steps: the last that fires wins. */
  function RpsFloor(ratio: real): (r: int)
    ensures 0 <= r <= 75
    ensures ratio >= 2.5 ==> r >= 25
    ensures ratio >= 5.0 ==> r >= 40
    ensures ratio >= 10.0 ==> r >= 60
    ensures ratio >= 20.0 ==> r == 75
    ensures ratio < 2.5 ==> r == 0
  {
    var f0 := 0;
    var f1 := if ratio >= 2.5 then 25 else f0;
    var f2 := if ratio >= 5.0 then 40 else f1;
    var f3 := if ratio >= 10.0 then 60 else f2;
    if ratio >= 20.0 then 75 else f3
  }

  /** Uniform headers (a falsy uniqueness counting as 1) with a concentrated endpoint. */
  predicate BotHeuristic(f: Features)
  {
    OrNumber(f.headerUniqueness, 1.0) < 0.3 && f.endpointConcentration > 0.4
  }

  /** The floors applied, in order, to the rounded composite: the rps floor, 45 for the bot
      heuristic above 10 rps, 70 for a concentrated endpoint with uniform headers. */
  function ApplyFloors(score: int, rpsRatio: real, botLike: bool, uniform: bool): (r: int)
  {
    var floored := MaxInt(score, RpsFloor(rpsRatio));
    var floored := if botLike then MaxInt(floored, 45) else floored;
    if uniform then MaxInt(floored, 70) else floored
  }

  /** Each floor is a lower bound, and the result is one of the candidates: a floor never
      raises the score beyond the largest floor that applies. */
  lemma ApplyFloorsBounds(score: int, rpsRatio: real, botLike: bool, uniform: bool)
    ensures var r := ApplyFloors(score, rpsRatio, botLike, uniform);
            && r >= score && r >= RpsFloor(rpsRatio)
            && (botLike ==> r >= 45)
            && (uniform ==> r >= 70)
            && (r == score || r == RpsFloor(rpsRatio) || (botLike && r == 45) || (uniform && r == 70))
  {
  }

  /** A larger composite, a larger ratio or the bot heuristic firing never lowers the result. */
  lemma ApplyFloorsMonotone(s1: int, s2: int, q1: real, q2: real, bot1: bool, bot2: bool, uniform: bool)
    requires s1 <= s2 && q1 <= q2 && (bot1 ==> bot2)
    ensures ApplyFloors(s1, q1, bot1, uniform) <= ApplyFloors(s2, q2, bot2, uniform)
  {
    RpsFloorMonotone(q1, q2);
  }

  /** A concentrated endpoint with uniform headers, as the scores see them. */
  predicate Uniform(s: FeatureVector)
  {
    s.endpointConcentration > 0.65 && s.headerEntropy > 0.55
  }

  /** The anomaly score of `f` against the baseline `b`. */
  function Score(b: FeatureVector, f: Features): int
  {
    var s := FeatureScores(b, f);
    var rpsEffective := RpsEffective(f);
    ApplyFloors(Round(Composite(s) * 100.0), RpsRatio(b, rpsEffective),
                rpsEffective > 10.0 && BotHeuristic(f), Uniform(s))
  }

  /** The score is always in [0, 100]. */
  lemma ScoreInRange(b: FeatureVector, f: Features)
    ensures 0 <= Score(b, f) <= 100
  {
    var s := FeatureScores(b, f);
    CompositeInRange(s);
    var c := Composite(s) * 100.0;
    assert 0.0 <= c <= 100.0;
    assert 0 <= Round(c) <= 100;
  }

  /** The floors: rps ratios of 2.5, 5, 10 and 20 force at least 25, 40, 60 and 75; the bot
      heuristic above 10 rps forces 45; concentrated, uniform headers force 70. */
  lemma ScoreFloors(b: FeatureVector, f: Features)
    ensures var ratio := RpsRatio(b, RpsEffective(f));
            && (ratio >= 2.5 ==> Score(b, f) >= 25)
            && (ratio >= 5.0 ==> Score(b, f) >= 40)
            && (ratio >= 10.0 ==> Score(b, f) >= 60)
            && (ratio >= 20.0 ==> Score(b, f) >= 75)
    ensures RpsEffective(f) > 10.0 && BotHeuristic(f) ==> Score(b, f) >= 45
    ensures var s := FeatureScores(b, f);
            s.endpointConcentration > 0.65 && s.headerEntropy > 0.55 ==> Score(b, f) >= 70
  {
    var s := FeatureScores(b, f);
    var e := RpsEffective(f);
    ApplyFloorsBounds(Round(Composite(s) * 100.0), RpsRatio(b, e), e > 10.0 && BotHeuristic(f),
                      s.endpointConcentration > 0.65 && s.headerEntropy > 0.55);
  }

  lemma ScoreUnfold(b: FeatureVector, f: Features)
    ensures var s := FeatureScores(b, f); var e := RpsEffective(f);
            Score(b, f) == ApplyFloors(Round(Composite(s) * 100.0), RpsRatio(b, e), e > 10.0 && BotHeuristic(f),
                                       Uniform(s))
  {
  }

  /** Raising only the rps score never lowers the composite. */
  lemma CompositeMonotoneInRps(s: FeatureVector, rpsScore: real)
    requires s.rps <= rpsScore
    ensures Composite(s) <= Composite(s.(rps := rpsScore))
  {
  }

  /** The rps inputs of the score, its rps score and its rps ratio, grow with the rps. */
  lemma RpsInputsMonotone(b: FeatureVector, e1: real, e2: real)
    requires e1 <= e2 && b.rps >= 0.0
    ensures ScoreFeature(e1, b.rps, true) <= ScoreFeature(e2, b.rps, true)
    ensures RpsRatio(b, e1) <= RpsRatio(b, e2)
  {
    ScoreFeatureMonotone(e1, e2, b.rps);
    if b.rps > 0.0 {
      Quotients(e1, e2, b.rps);
    }
  }

  /** Floors applied to a composite whose rps score is larger, with a larger ratio. */
  lemma FlooredMonotone(s1: FeatureVector, s2: FeatureVector, q1: real, q2: real, bot1: bool, bot2: bool)
    requires s2 == s1.(rps := s2.rps) && s1.rps <= s2.rps && q1 <= q2 && (bot1 ==> bot2)
    ensures ApplyFloors(Round(Composite(s1) * 100.0), q1, bot1, Uniform(s1))
         <= ApplyFloors(Round(Composite(s2) * 100.0), q2, bot2, Uniform(s2))
  {
    CompositeMonotoneInRps(s1, s2.rps);
    RoundMonotone(Composite(s1) * 100.0, Composite(s2) * 100.0);
    ApplyFloorsMonotone(Round(Composite(s1) * 100.0), Round(Composite(s2) * 100.0), q1, q2, bot1, bot2, Uniform(s1));
  }

  /** Changing only the rps changes only the rps score, and more rps scores no lower. */
  lemma RpsChangesOnlyRpsScore(b: FeatureVector, f: Features, rps: real)
    requires b.rps >= 0.0 && f.rps <= rps
    ensures var s1 := FeatureScores(b, f); var s2 := FeatureScores(b, f.(rps := rps));
            s2 == s1.(rps := s2.rps) && s1.rps <= s2.rps
    ensures RpsRatio(b, RpsEffective(f)) <= RpsRatio(b, RpsEffective(f.(rps := rps)))
    ensures BotHeuristic(f.(rps := rps)) == BotHeuristic(f)
    ensures RpsEffective(f) <= RpsEffective(f.(rps := rps))
  {
    RpsInputsMonotone(b, RpsEffective(f), RpsEffective(f.(rps := rps)));
  }

  /** Two feature sets whose scores differ only in a larger rps score, with a larger ratio. */
  lemma ScoreCompare(b: FeatureVector, f: Features, g: Features)
    requires var s1 := FeatureScores(b, f); var s2 := FeatureScores(b, g);
             s2 == s1.(rps := s2.rps) && s1.rps <= s2.rps
    requires RpsRatio(b, RpsEffective(f)) <= RpsRatio(b, RpsEffective(g))
    requires RpsEffective(f) <= RpsEffective(g) && (BotHeuristic(f) ==> BotHeuristic(g))
    ensures Score(b, f) <= Score(b, g)
  {
    FlooredMonotone(FeatureScores(b, f), FeatureScores(b, g), RpsRatio(b, RpsEffective(f)), RpsRatio(b, RpsEffective(g)),
                    RpsEffective(f) > 10.0 && BotHeuristic(f), RpsEffective(g) > 10.0 && BotHeuristic(g));
    ScoreUnfold(b, f);
    ScoreUnfold(b, g);
  }

  /** With the baseline and every other feature fixed, more rps never lowers the score. */
  lemma ScoreMonotoneInRps(b: FeatureVector, f: Features, rps: real)
    requires b.rps >= 0.0 && f.rps <= rps
    ensures Score(b, f) <= Score(b, f.(rps := rps))
  {
    RpsChangesOnlyRpsScore(b, f, rps);
    ScoreCompare(b, f, f.(rps := rps));
  }

  lemma RoundMonotone(x: real, y: real)
    requires x <= y
    ensures Round(x) <= Round(y)
  {
  }

  lemma RpsFloorMonotone(x: real, y: real)
    requires x <= y
    ensures RpsFloor(x) <= RpsFloor(y)
  {
  }

  // ---------------------------------------------------------------------------------
  // The contributors: the five scores sorted by weight, highest first, ties in list order.

  datatype Contributor = Contributor(feature: FeatureName, weight: real)

  function ContributorsOf(s: FeatureVector): (r: seq<Contributor>)
    ensures |r| == 5 && forall i :: 0 <= i < 5 ==> r[i].feature == BaselineKeys[i]
  {
    [Contributor(RpsName, s.rps), Contributor(ConcentrationName, s.endpointConcentration),
     Contributor(EntropyName, s.headerEntropy), Contributor(VarianceName, s.payloadVariance),
     Contributor(BurstinessName, s.burstiness)]
  }

  /** `a` comes before `b` after a stable sort by descending weight of a list in rank order. */
  predicate Precedes(a: Contributor, b: Contributor)
  {
    a.weight > b.weight || (a.weight == b.weight && Rank(a.feature) < Rank(b.feature))
  }

  predicate Ordered(s: seq<Contributor>)
  {
    forall i, j :: 0 <= i < j < |s| ==> Precedes(s[i], s[j])
  }

  predicate RankIncreasing(s: seq<Contributor>)
  {
    forall i, j :: 0 <= i < j < |s| ==> Rank(s[i].feature) < Rank(s[j].feature)
  }

  /** Puts `x`, which came before every element of `s` in the original list, in front of the
      first element that does not outweigh it. */
  function Insert(x: Contributor, s: seq<Contributor>): (r: seq<Contributor>)
    ensures |r| == |s| + 1
  {
    if |s| == 0 || s[0].weight <= x.weight then [x] + s
    else [s[0]] + Insert(x, s[1..])
  }

  /** `.sort((a, b) => b.weight - a.weight)`, which is stable. */
  function SortByWeight(s: seq<Contributor>): (r: seq<Contributor>)
    ensures |r| == |s|
  {
    if |s| == 0 then [] else Insert(s[0], SortByWeight(s[1..]))
  }

  lemma {:induction false} InsertPermutes(x: Contributor, s: seq<Contributor>)
    ensures multiset(Insert(x, s)) == multiset(s) + multiset{x}
    decreases |s|
  {
    if |s| > 0 && s[0].weight > x.weight {
      InsertPermutes(x, s[1..]);
      assert s == [s[0]] + s[1..];
    }
  }

  /** Sorting only reorders the list. */
  lemma {:induction false} SortPermutes(s: seq<Contributor>)
    ensures multiset(SortByWeight(s)) == multiset(s)
    decreases |s|
  {
    if |s| > 0 {
      SortPermutes(s[1..]);
      InsertPermutes(s[0], SortByWeight(s[1..]));
      assert s == [s[0]] + s[1..];
    }
  }

  lemma {:induction false} InsertOrdered(x: Contributor, s: seq<Contributor>)
    requires Ordered(s)
    requires forall k :: 0 <= k < |s| ==> Rank(x.feature) < Rank(s[k].feature)
    ensures Ordered(Insert(x, s))
    decreases |s|
  {
    var r := Insert(x, s);
    if |s| > 0 && s[0].weight > x.weight {
      var t := s[1..];
      InsertOrdered(x, t);
      InsertPermutes(x, t);
      var u := Insert(x, t);
      assert r == [s[0]] + u;
      forall j | 0 < j < |r|
        ensures Precedes(s[0], r[j])
      {
        assert r[j] == u[j - 1];
        assert u[j - 1] in multiset(u);
        if r[j] != x {
          assert r[j] in multiset(t);
          var k :| 0 <= k < |t| && t[k] == r[j];
          assert s[k + 1] == r[j];
        }
      }
    } else {
      assert r == [x] + s;
      forall j | 0 < j < |r|
        ensures Precedes(x, r[j])
      {
        assert r[j] == s[j - 1];
        if j > 1 {
          assert Precedes(s[0], s[j - 1]);
        }
      }
    }
  }

  /** Sorting a list in rank order gives descending weights, ties in rank order: a stable sort. */
  lemma {:induction false} SortOrdered(s: seq<Contributor>)
    requires RankIncreasing(s)
    ensures Ordered(SortByWeight(s))
    decreases |s|
  {
    if |s| > 0 {
      var t := s[1..];
      SortOrdered(t);
      SortPermutes(t);
      var u := SortByWeight(t);
      forall k | 0 <= k < |u|
        ensures Rank(s[0].feature) < Rank(u[k].feature)
      {
        assert u[k] in multiset(t);
        var m :| 0 <= m < |t| && t[m] == u[k];
        assert t[m] == s[m + 1];
      }
      InsertOrdered(s[0], u);
    }
  }

  /** When every weight is the same the sort changes nothing. */
  lemma {:induction false} SortEqualWeights(s: seq<Contributor>)
    requires forall k :: 0 <= k < |s| ==> s[k].weight == s[0].weight
    ensures SortByWeight(s) == s
    decreases |s|
  {
    if |s| > 0 {
      SortEqualWeights(s[1..]);
      assert s == [s[0]] + s[1..];
    }
  }

  /** The names of the first three contributors of the sorted list. */
  function TopContributors(s: FeatureVector): (names: seq<string>)
  {
    var sorted := SortByWeight(ContributorsOf(s));
    [NameOf(sorted[0].feature), NameOf(sorted[1].feature), NameOf(sorted[2].feature)]
  }

  /** Each feature has one contributor, at the feature's rank. */
  lemma ContributorAtRank(s: FeatureVector, x: Contributor)
    requires x in ContributorsOf(s)
    ensures x == ContributorsOf(s)[Rank(x.feature)]
  {
  }

  /** The sorted contributor list: the five contributors, reordered, each feature once. */
  lemma SortedContributors(s: FeatureVector)
    ensures var c := ContributorsOf(s); var sorted := SortByWeight(c);
            && Ordered(sorted)
            && forall i :: 0 <= i < 5 ==> sorted[i] == c[Rank(sorted[i].feature)]
  {
    var c := ContributorsOf(s);
    assert RankIncreasing(c) by {
      forall i, j | 0 <= i < j < |c|
        ensures Rank(c[i].feature) < Rank(c[j].feature)
      {
        assert c[i].feature == BaselineKeys[i] && c[j].feature == BaselineKeys[j];
      }
    }
    SortOrdered(c);
    SortPermutes(c);
    var sorted := SortByWeight(c);
    forall i | 0 <= i < 5
      ensures sorted[i] == c[Rank(sorted[i].feature)]
    {
      assert sorted[i] in multiset(c);
      ContributorAtRank(s, sorted[i]);
    }
  }

  /** Three distinct feature names, the weights of their features non-increasing, and no
      feature left out weighing more than the third (a tie goes to the earlier feature). */
  lemma TopContributorsShape(s: FeatureVector)
    ensures var sorted := SortByWeight(ContributorsOf(s));
            && TopContributors(s) == [NameOf(sorted[0].feature), NameOf(sorted[1].feature), NameOf(sorted[2].feature)]
            && sorted[0].weight >= sorted[1].weight >= sorted[2].weight
            && sorted[0].feature != sorted[1].feature && sorted[1].feature != sorted[2].feature
            && sorted[0].feature != sorted[2].feature
            && Precedes(sorted[2], sorted[3]) && Precedes(sorted[2], sorted[4])
            && forall i :: 0 <= i < 5 ==> sorted[i].weight == s.Get(sorted[i].feature)
  {
    SortedContributors(s);
    var c := ContributorsOf(s);
    var sorted := SortByWeight(c);
    assert Precedes(sorted[0], sorted[1]) && Precedes(sorted[1], sorted[2]) && Precedes(sorted[0], sorted[2]);
    forall i | 0 <= i < 5
      ensures sorted[i].weight == s.Get(sorted[i].feature)
    {
      assert sorted[i] == c[Rank(sorted[i].feature)];
    }
  }

  /** With every score equal, the contributors keep the list order. */
  lemma TiesKeepListOrder(s: FeatureVector)
    requires s.rps == s.endpointConcentration == s.headerEntropy == s.payloadVariance == s.burstiness
    ensures TopContributors(s) == ["rps", "endpointConcentration", "headerEntropy"]
  {
    SortEqualWeights(ContributorsOf(s));
  }

  /** `rpsEffective > baseline.rps * 2.5`: a spike slows down learning. */
  predicate Spike(b: FeatureVector, rpsEffective: real)
  {
    rpsEffective > b.rps * 2.5
  }

  /** What the baseline learns from: the features with rps replaced by the effective rps. */
  function Observed(f: Features): FeatureVector
  {
    FeatureVector(RpsEffective(f), f.endpointConcentration, f.headerEntropy, f.payloadVariance, f.burstiness)
  }

  /** The result of one `anomalyScore(features)` call. */
  datatype AnomalyResult = AnomalyResult(score: int, contributors: seq<string>, baseline: FeatureVector)

  /** The detector created by `createAnomalyDetector()`: the closure's baseline is the field. */
  class AnomalyDetector {
    var baseline: FeatureVector

    constructor ()
      ensures baseline == InitialBaseline
    {
      baseline := InitialBaseline;
    }

    /** `updateBaseline(features, factor)`: every key of the baseline moves towards the
        observed value by `0.08 * factor`. */
    method UpdateBaseline(features: FeatureVector, factor: real)
      modifies this
      ensures baseline == Smoothed(old(baseline), features, Smoothing * factor)
    {
      var alpha := Smoothing * factor;
      var i := 0;
      while i < |BaselineKeys|
        invariant 0 <= i <= |BaselineKeys|
        invariant forall j :: 0 <= j < i ==>
                    baseline.Get(BaselineKeys[j])
                    == Blend(old(baseline).Get(BaselineKeys[j]), features.Get(BaselineKeys[j]), alpha)
        invariant forall j :: i <= j < |BaselineKeys| ==>
                    baseline.Get(BaselineKeys[j]) == old(baseline).Get(BaselineKeys[j])
      {
        var key := BaselineKeys[i];
        baseline := baseline.With(key, Blend(baseline.Get(key), features.Get(key), alpha));
        i := i + 1;
      }
      ghost var target := Smoothed(old(baseline), features, alpha);
      forall k
        ensures baseline.Get(k) == target.Get(k)
      {
        assert k == BaselineKeys[Rank(k)];
      }
      VectorsAgree(baseline, target);
    }

    /** `anomalyScore(features)`: scores against the baseline as it was, then learns. */
    method AnomalyScore(features: Features) returns (r: AnomalyResult)
      modifies this
      ensures r.score == Score(old(baseline), features)
      ensures r.contributors == TopContributors(FeatureScores(old(baseline), features))
      ensures baseline == Smoothed(old(baseline), Observed(features),
                                   if Spike(old(baseline), RpsEffective(features)) then 0.016 else 0.08)
      ensures r.baseline == baseline
    {
      var rpsEffective := RpsEffective(features);
      var scores := FeatureScores(baseline, features);
      var score := Score(baseline, features);
      var contributors := TopContributors(scores);
      var spike := rpsEffective > baseline.rps * 2.5;
      UpdateBaseline(Observed(features), if spike then 0.2 else 1.0);
      r := AnomalyResult(score, contributors, baseline);
    }
  }
}
