/**
 * Per-group statistics of the analyzer: `calculate_group_stats` (ARPU) and
 * `calculate_conversion_rate_stats` (conversion rate).
 */
module GroupStats {
  import opened Wrappers
  import opened Numerics
  import opened Sums
  import Json

  /** A group's display name: whatever the input document holds under `name`. */
  type Label = Json.Value

  /**
   * One experiment arm as the comparison engine receives it: `(users, revenue
   * list)` for ARPU analysis, `(users, conversions)` for conversion-rate analysis.
   */
  datatype Group =
    | RevenueGroup(users: int, revenues: seq<real>)
    | ConversionGroup(users: int, conversions: Json.Value)

  /**
   * What `calculate_group_stats` needs of its input without checking it: the
   * revenue list must fit into `np.zeros(users)`, and `np.var(..., ddof=1)`
   * over that array divides by `users - 1`.
   */
  predicate RevenueInputOk(users: int, revenues: seq<real>)
  {
    revenues == [] || (2 <= users && |revenues| <= users)
  }

  /** The per-user revenue array: the list followed by one zero per non-converting user. */
  function PaddedRevenues(revenues: seq<real>, users: nat): (r: seq<real>)
    requires |revenues| <= users
    ensures |r| == users
    ensures forall k :: 0 <= k < |revenues| ==> r[k] == revenues[k]
    ensures forall k :: |revenues| <= k < users ==> r[k] == 0.0
  {
    revenues + Repeat(0.0, users - |revenues|)
  }

  datatype RevenueStats = RevenueStats(
    users: int,
    conversions: nat,
    totalRevenue: real,
    arpu: real,
    arpuCiLower: real,
    arpuCiUpper: real,
    cvr: real,
    avgConversionValue: real,
    revenueVariance: real,
    se: real)

  /** `x / d if d > 0 else 0`, the guarded division the analyzer uses throughout. */
  function GuardedRatio(x: real, d: real): (r: real)
    ensures d > 0.0 ==> r == x / d
    ensures d <= 0.0 ==> r == 0.0
  {
    if d > 0.0 then x / d else 0.0
  }

  /** `np.sqrt(variance / users) if users > 0 else 0` */
  function MeanStandardError(m: Primitives, variance: real, users: int): (se: real)
    requires Sound(m) && variance >= 0.0
    ensures se >= 0.0
    ensures users > 0 ==> se * se == variance / users as real
    ensures users <= 0 ==> se == 0.0
  {
    if users > 0 then
      NonNegativeQuotient(variance, users as real);
      m.sqrt(variance / users as real)
    else 0.0
  }

  /**
   * `[centre - z*se, centre + z*se]`: an interval symmetric about its centre,
   * which contains the centre when `z` comes from a level `alpha <= 1`.
   */
  function SymmetricInterval(m: Primitives, centre: real, alpha: real, se: real): (ci: (real, real))
    requires Sound(m) && se >= 0.0
    ensures ci.1 - centre == centre - ci.0 == Critical(m, alpha) * se
    ensures alpha <= 1.0 ==> ci.0 <= centre <= ci.1
  {
    var z := Critical(m, alpha);
    assert alpha <= 1.0 ==> z * se >= 0.0 by {
      if alpha <= 1.0 { NonNegativeProduct(z, se); }
    }
    (centre - z * se, centre + z * se)
  }

  /** `np.sum(revenues) if n_conversions > 0 else 0`, which is the plain sum. */
  function TotalRevenue(revenues: seq<real>): (t: real)
    ensures t == Sum(revenues)
  {
    if |revenues| > 0 then Sum(revenues) else 0.0
  }

  /** The unbiased variance of the per-user revenue array, 0 for a group without conversions. */
  function RevenueVarianceOf(users: int, revenues: seq<real>): (v: real)
    requires RevenueInputOk(users, revenues)
    ensures v >= 0.0
    ensures revenues != [] ==> v == SampleVariance(PaddedRevenues(revenues, users))
    ensures revenues == [] ==> v == 0.0
  {
    if |revenues| > 0 then SampleVariance(PaddedRevenues(revenues, users)) else 0.0
  }

  /** The statistics `calculate_group_stats(users, revenues, alpha)` returns. */
  function RevenueStatsOf(m: Primitives, users: int, revenues: seq<real>, alpha: real): (r: RevenueStats)
    requires Sound(m) && RevenueInputOk(users, revenues)
    ensures r.users == users && r.conversions == |revenues| && r.totalRevenue == Sum(revenues)
    ensures users > 0 ==> r.arpu == r.totalRevenue / users as real && r.cvr == |revenues| as real / users as real
    ensures users <= 0 ==> r.arpu == 0.0 && r.cvr == 0.0
    ensures revenues != [] ==> r.avgConversionValue == r.totalRevenue / |revenues| as real
    ensures revenues != [] ==> r.revenueVariance == SampleVariance(PaddedRevenues(revenues, users))
    ensures revenues == [] ==> r.avgConversionValue == 0.0 && r.revenueVariance == 0.0 && r.se == 0.0
    ensures r.revenueVariance >= 0.0 && r.se >= 0.0
    ensures users > 0 ==> r.se * r.se == r.revenueVariance / users as real
    ensures r.arpuCiUpper - r.arpu == r.arpu - r.arpuCiLower == Critical(m, alpha) * r.se
    ensures alpha <= 1.0 ==> r.arpuCiLower <= r.arpu <= r.arpuCiUpper
  {
    var n := |revenues|;
    var total := TotalRevenue(revenues);
    var arpu := GuardedRatio(total, users as real);
    var cvr := GuardedRatio(n as real, users as real);
    var avg := GuardedRatio(total, n as real);
    var variance := RevenueVarianceOf(users, revenues);
    var se := MeanStandardError(m, variance, users);
    var ci := SymmetricInterval(m, arpu, alpha, se);
    RevenueStats(users, n, total, arpu, ci.0, ci.1, cvr, avg, variance, se)
  }

  /**
   * `calculate_group_stats`; the unbiased variance is taken over the
   * per-user array built by `RevenueVariance`.
   */
  method CalculateGroupStats(m: Primitives, users: int, revenues: seq<real>, alpha: real) returns (r: RevenueStats)
    requires Sound(m) && RevenueInputOk(users, revenues)
    ensures r == RevenueStatsOf(m, users, revenues, alpha)
  {
    var n := |revenues|;
    var total := TotalRevenue(revenues);
    var arpu := GuardedRatio(total, users as real);
    var cvr := GuardedRatio(n as real, users as real);
    var avg := GuardedRatio(total, n as real);
    var variance := 0.0;
    if n > 0 {
      variance := RevenueVariance(users, revenues);
    }
    var se := MeanStandardError(m, variance, users);
    var ci := SymmetricInterval(m, arpu, alpha, se);
    r := RevenueStats(users, n, total, arpu, ci.0, ci.1, cvr, avg, variance, se);
  }

  /**
   * `all_revenues = np.zeros(users)`, `all_revenues[:n] = conversions`,
   * `np.var(all_revenues, ddof=1)`: the array is filled in place.
   */
  method RevenueVariance(users: int, revenues: seq<real>) returns (v: real)
    requires revenues != [] && RevenueInputOk(users, revenues)
    ensures v == SampleVariance(PaddedRevenues(revenues, users))
  {
    var allRevenues := new real[users](_ => 0.0);
    forall k | 0 <= k < |revenues| {
      allRevenues[k] := revenues[k];
    }
    assert allRevenues[..] == PaddedRevenues(revenues, users);
    v := SampleVariance(allRevenues[..]);
  }

  /** Padding with zeros keeps the total, so the mean of the per-user array is the ARPU. */
  lemma PaddingKeepsTotal(revenues: seq<real>, users: nat)
    requires |revenues| <= users
    ensures Sum(PaddedRevenues(revenues, users)) == Sum(revenues)
  {
    SumAppend(revenues, Repeat(0.0, users - |revenues|));
    SumRepeat(0.0, users - |revenues|);
  }

  /**
   * The squared deviations of the per-user array in closed form: those of the
   * converting users plus one `mean * mean` per non-converting user.
   */
  lemma PaddedSumSqDev(revenues: seq<real>, users: nat, mean: real)
    requires |revenues| <= users
    ensures SumSqDev(PaddedRevenues(revenues, users), mean)
      == SumSqDev(revenues, mean) + (users - |revenues|) as real * (mean * mean)
  {
    var zeros := Repeat(0.0, users - |revenues|);
    SumSqDevAppend(revenues, zeros, mean);
    SumSqDevRepeat(0.0, users - |revenues|, mean);
    assert (0.0 - mean) * (0.0 - mean) == mean * mean;
  }

  datatype RateStats = RateStats(
    users: int,
    conversions: int,
    conversionRate: real,
    rateCiLower: real,
    rateCiUpper: real,
    se: real)

  /** The `ValueError` of `calculate_conversion_rate_stats`. */
  datatype StatsError = ConversionsNotNonNegativeInteger

  function Max(a: real, b: real): real { if a >= b then a else b }
  function Min(a: real, b: real): real { if a <= b then a else b }

  /** `calculate_conversion_rate_stats(users, conversions, alpha)` */
  function ConversionRateStats(m: Primitives, users: int, conversions: Json.Value, alpha: real): (r: Result<RateStats, StatsError>)
    requires Sound(m)
    ensures r.Failure? <==> Json.AsInt(conversions).None? || Json.AsInt(conversions).value < 0
    ensures r.Success? ==> RateStatsFacts(m, users, Json.AsInt(conversions).value, alpha, r.value)
  {
    match Json.AsInt(conversions)
    case None => Failure(ConversionsNotNonNegativeInteger)
    case Some(c) =>
      if c < 0 then Failure(ConversionsNotNonNegativeInteger)
      else
        RateStatsAreSound(m, users, c, alpha);
        Success(RateStatsFor(m, users, c, alpha))
  }

  /** `sqrt(p * (1 - p) / users)` when `0 < p < 1` and `users > 0`, else 0. */
  function BinomialStandardError(m: Primitives, p: real, users: int): (se: real)
    requires Sound(m)
    ensures se >= 0.0
    ensures se > 0.0 <==> users > 0 && 0.0 < p < 1.0
    ensures se > 0.0 ==> se * se == p * (1.0 - p) / users as real
  {
    if users > 0 && p > 0.0 && p < 1.0 then
      PositiveProduct(p, 1.0 - p);
      PositiveQuotient(p * (1.0 - p), users as real);
      m.sqrt(p * (1.0 - p) / users as real)
    else 0.0
  }

  /** The statistics of a group whose conversion count is a non-negative integer. */
  function RateStatsFor(m: Primitives, users: int, c: nat, alpha: real): RateStats
    requires Sound(m)
  {
    var rate := GuardedRatio(c as real, users as real);
    var se := BinomialStandardError(m, rate, users);
    var ci := ClampedInterval(m, rate, alpha, se);
    RateStats(users, c, rate, ci.0, ci.1, se)
  }

  /**
   * `[max(0, rate - z*se), min(1, rate + z*se)]`: it never leaves [0, 1], it
   * contains a rate of [0, 1] when `alpha <= 1`, and it collapses to the rate
   * when the standard error is 0.
   */
  function ClampedInterval(m: Primitives, rate: real, alpha: real, se: real): (ci: (real, real))
    requires Sound(m) && se >= 0.0
    ensures ci.0 == Max(0.0, rate - Critical(m, alpha) * se)
    ensures ci.1 == Min(1.0, rate + Critical(m, alpha) * se)
    ensures 0.0 <= ci.0 && ci.1 <= 1.0
    ensures alpha <= 1.0 && 0.0 <= rate <= 1.0 ==> ci.0 <= rate <= ci.1
    ensures se == 0.0 && 0.0 <= rate <= 1.0 ==> ci.0 == rate == ci.1
  {
    var z := Critical(m, alpha);
    assert alpha <= 1.0 ==> z * se >= 0.0 by {
      if alpha <= 1.0 { NonNegativeProduct(z, se); }
    }
    (Max(0.0, rate - z * se), Min(1.0, rate + z * se))
  }

  /** What the conversion-rate statistics of a group promise. */
  ghost predicate RateStatsFacts(m: Primitives, users: int, c: int, alpha: real, s: RateStats)
    requires Sound(m)
  {
    RateStatsValues(m, users, c, alpha, s) && RateStatsBounds(users, c, alpha, s)
  }

  /** Each field of the record is the formula `calculate_conversion_rate_stats` uses. */
  ghost predicate RateStatsValues(m: Primitives, users: int, c: int, alpha: real, s: RateStats)
    requires Sound(m)
  {
    && s.users == users && s.conversions == c
    && (users > 0 ==> s.conversionRate == c as real / users as real)
    && (users <= 0 ==> s.conversionRate == 0.0)
    && s.se == BinomialStandardError(m, s.conversionRate, users)
    && s.rateCiLower == Max(0.0, s.conversionRate - Critical(m, alpha) * s.se)
    && s.rateCiUpper == Min(1.0, s.conversionRate + Critical(m, alpha) * s.se)
  }

  /** The interval stays in [0, 1], contains the rate and collapses with a zero error. */
  ghost predicate RateStatsBounds(users: int, c: int, alpha: real, s: RateStats)
  {
    && s.se >= 0.0
    && (s.se == 0.0 <==> users <= 0 || s.conversionRate <= 0.0 || s.conversionRate >= 1.0)
    && 0.0 <= s.rateCiLower && s.rateCiUpper <= 1.0
    && (alpha <= 1.0 && 0 < users && 0 <= c <= users ==>
          0.0 <= s.rateCiLower <= s.conversionRate <= s.rateCiUpper <= 1.0)
    && (s.se == 0.0 && 0.0 <= s.conversionRate <= 1.0 ==>
          s.rateCiLower == s.conversionRate == s.rateCiUpper)
  }

  lemma RateStatsAreSound(m: Primitives, users: int, c: nat, alpha: real)
    requires Sound(m)
    ensures RateStatsFacts(m, users, c, alpha, RateStatsFor(m, users, c, alpha))
  {
    var s := RateStatsFor(m, users, c, alpha);
    RateStatsForValues(m, users, c, alpha);
    ValuesGiveBounds(m, users, c, alpha, s);
  }

  lemma RateStatsForValues(m: Primitives, users: int, c: nat, alpha: real)
    requires Sound(m)
    ensures RateStatsValues(m, users, c, alpha, RateStatsFor(m, users, c, alpha))
  {
    var rate := GuardedRatio(c as real, users as real);
    var se := BinomialStandardError(m, rate, users);
    var ci := ClampedInterval(m, rate, alpha, se);
    assert RateStatsFor(m, users, c, alpha) == RateStats(users, c, rate, ci.0, ci.1, se);
  }

  lemma ValuesGiveBounds(m: Primitives, users: int, c: nat, alpha: real, s: RateStats)
    requires Sound(m) && RateStatsValues(m, users, c, alpha, s)
    ensures RateStatsBounds(users, c, alpha, s)
  {
    var z := Critical(m, alpha);
    if alpha <= 1.0 { NonNegativeProduct(z, s.se); }
    if 0 < users && c <= users {
      RateAtMostOne(c, users);
    }
  }

  lemma RateAtMostOne(c: int, users: int)
    requires 0 <= c <= users && users > 0
    ensures 0.0 <= c as real / users as real <= 1.0
  {
  }
}
