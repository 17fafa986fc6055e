/**
 * The pairwise comparison engine of the analyzer: `compare_groups_arpu`,
 * `compare_groups_conversion_rate` and the dispatcher `compare_groups`.
 */
module Comparison {
  import opened Wrappers
  import opened Numerics
  import opened Pairs
  import opened GroupStats
  import Json

  /** One record of the comparisons table. */
  datatype Comparison = Comparison(
    groupA: Label,
    groupB: Label,
    metricA: real,
    metricB: real,
    difference: real,
    diffCiLower: real,
    diffCiUpper: real,
    seDifference: real,
    zScore: real,
    pValue: real,
    significant: bool)

  /** One row of the per-group table: the statistics plus the `group` column. */
  datatype Row<S> = Row(group: Label, stats: S)

  /** What a comparison reads from a row: its name, its metric and its standard error. */
  datatype Arm = Arm(group: Label, metric: real, se: real)

  /** `group_names[i] if group_names else f'Group {i}'` */
  function NameAt(names: seq<Label>, i: nat): (r: Label)
    requires names == [] || i < |names|
    ensures names != [] ==> r == names[i]
    ensures names == [] ==> r == Json.DefaultGroupName(i)
  {
    if names == [] then Json.DefaultGroupName(i) else names[i]
  }

  /** The Bonferroni-corrected threshold for `n` groups. */
  function BonferroniAlpha(alpha: real, n: nat): (r: real)
    ensures n >= 2 ==> r * (n * (n - 1) / 2) as real == alpha
    ensures n < 2 ==> r == alpha
  {
    var comparisons := n * (n - 1) / 2;
    if comparisons > 0 then alpha / comparisons as real else alpha
  }

  /** The number of comparisons is `n(n-1)/2`, positive exactly when there are two groups or more. */
  lemma ComparisonCount(n: nat)
    ensures |Combinations2(n)| == n * (n - 1) / 2
    ensures |Combinations2(n)| > 0 <==> n >= 2
  {
    if n >= 2 {
      assert n * (n - 1) >= 2 * 1;
    }
  }

  /** The body of the comparison loop for the pair `(a, b)`. */
  function ComparePair(m: Primitives, a: Arm, b: Arm, alpha: real, bonferroniAlpha: real): (c: Comparison)
    requires Sound(m)
    ensures c.groupA == a.group && c.groupB == b.group
    ensures c.metricA == a.metric && c.metricB == b.metric
    ensures c.difference == a.metric - b.metric
    ensures c.seDifference >= 0.0
    ensures c.seDifference * c.seDifference == a.se * a.se + b.se * b.se
    ensures c.seDifference > 0.0 ==> c.zScore == c.difference / c.seDifference
    ensures c.seDifference == 0.0 ==> c.zScore == 0.0
    ensures c.pValue == TwoSidedP(m, c.zScore)
    ensures c.significant <==> c.pValue < bonferroniAlpha
    ensures c.diffCiUpper - c.difference == c.difference - c.diffCiLower == Critical(m, alpha) * c.seDifference
    ensures alpha <= 1.0 ==> c.diffCiLower <= c.difference <= c.diffCiUpper
  {
    var diff := a.metric - b.metric;
    var seDiff := PairStandardError(m, a.se, b.se);
    var z := GuardedRatio(diff, seDiff);
    var p := TwoSidedP(m, z);
    var ci := SymmetricInterval(m, diff, alpha, seDiff);
    Comparison(a.group, b.group, a.metric, b.metric, diff, ci.0, ci.1, seDiff, z, p, p < bonferroniAlpha)
  }

  /** `sqrt(se_a^2 + se_b^2)`, the standard error of a difference of independent estimates. */
  function PairStandardError(m: Primitives, seA: real, seB: real): (s: real)
    requires Sound(m)
    ensures s >= 0.0 && s * s == seA * seA + seB * seB
  {
    SquareNonNegative(seA);
    SquareNonNegative(seB);
    m.sqrt(seA * seA + seB * seB)
  }

  /**
   * The pair standard error is zero exactly when both groups' standard errors
   * are (which the per-group statistics guarantee to be non-negative).
   */
  lemma SeDifferenceZero(m: Primitives, a: Arm, b: Arm, alpha: real, bonferroniAlpha: real)
    requires Sound(m) && a.se >= 0.0 && b.se >= 0.0
    ensures ComparePair(m, a, b, alpha, bonferroniAlpha).seDifference == 0.0 <==> a.se == 0.0 && b.se == 0.0
  {
    SquareNonNegative(a.se);
    SquareNonNegative(b.se);
    if a.se > 0.0 {
      PositiveProduct(a.se, a.se);
    } else if b.se > 0.0 {
      PositiveProduct(b.se, b.se);
    }
  }

  /**
   * Comparing `b` with `a` instead of `a` with `b` negates the difference and
   * the z-score and leaves the standard error, the p-value and the verdict as
   * they are.
   */
  lemma ComparePairAntisymmetric(m: Primitives, a: Arm, b: Arm, alpha: real, bonferroniAlpha: real)
    requires Sound(m)
    ensures var ab, ba := ComparePair(m, a, b, alpha, bonferroniAlpha), ComparePair(m, b, a, alpha, bonferroniAlpha);
      && ba.difference == -ab.difference
      && ba.seDifference == ab.seDifference
      && ba.zScore == -ab.zScore
      && ba.pValue == ab.pValue
      && ba.significant == ab.significant
  {
    var ab, ba := ComparePair(m, a, b, alpha, bonferroniAlpha), ComparePair(m, b, a, alpha, bonferroniAlpha);
    assert ba.seDifference == ab.seDifference by {
      assert a.se * a.se + b.se * b.se == b.se * b.se + a.se * a.se;
    }
    if ab.seDifference > 0.0 {
      NegatedQuotient(ab.difference, ab.seDifference);
    }
    assert Abs(ba.zScore) == Abs(ab.zScore);
  }

  lemma NegatedQuotient(x: real, s: real)
    requires s > 0.0
    ensures (-x) / s == -(x / s)
  {
    assert (x / s) * s == x;
    assert (-(x / s)) * s == -x;
  }

  /**
   * Two groups with the same metric are never declared different, whatever
   * their standard errors, as long as the corrected threshold is at most 1.
   */
  lemma EqualMetricsNotSignificant(m: Primitives, a: Arm, b: Arm, alpha: real, bonferroniAlpha: real)
    requires Sound(m) && a.metric == b.metric && bonferroniAlpha <= 1.0
    ensures var c := ComparePair(m, a, b, alpha, bonferroniAlpha);
      c.difference == 0.0 && c.zScore == 0.0 && c.pValue == 1.0 && !c.significant
  {
  }

  /**
   * The comparisons table: one record per pair `i < j` of `combinations`, in
   * that order, each tested against the threshold for `|arms|` groups.
   */
  ghost predicate IsComparisonTable(m: Primitives, arms: seq<Arm>, alpha: real, comps: seq<Comparison>)
    requires Sound(m)
  {
    var pairs := Combinations2(|arms|);
    && |comps| == |pairs|
    && forall k :: 0 <= k < |comps| ==>
         comps[k] == ComparePair(m, arms[pairs[k].0], arms[pairs[k].1], alpha, BonferroniAlpha(alpha, |arms|))
  }

  /** The loop over `combinations(results_df.index, 2)` shared by both comparison kinds. */
  method PairwiseComparisons(m: Primitives, arms: seq<Arm>, alpha: real) returns (comps: seq<Comparison>)
    requires Sound(m)
    ensures IsComparisonTable(m, arms, alpha, comps)
  {
    var nGroups := |arms|;
    var nComparisons := nGroups * (nGroups - 1) / 2;
    var bonferroniAlpha := if nComparisons > 0 then alpha / nComparisons as real else alpha;
    var pairs := Combinations2(nGroups);
    comps := [];
    for k := 0 to |pairs|
      invariant |comps| == k
      invariant forall q :: 0 <= q < k ==>
        comps[q] == ComparePair(m, arms[pairs[q].0], arms[pairs[q].1], alpha, bonferroniAlpha)
    {
      var (i, j) := pairs[k];
      comps := comps + [ComparePair(m, arms[i], arms[j], alpha, bonferroniAlpha)];
    }
  }

  /**
   * What the comparisons table promises about the groups themselves: every
   * unordered pair is compared once, first index first, in lexicographic order.
   */
  lemma ComparisonTableCoversPairs(m: Primitives, arms: seq<Arm>, alpha: real, comps: seq<Comparison>, i: nat, j: nat)
    requires Sound(m) && IsComparisonTable(m, arms, alpha, comps) && i < j < |arms|
    ensures exists k :: 0 <= k < |comps| && comps[k] == ComparePair(m, arms[i], arms[j], alpha, BonferroniAlpha(alpha, |arms|))
  {
    CombinationsComplete(|arms|, i, j);
    var pairs := Combinations2(|arms|);
    var k :| 0 <= k < |pairs| && pairs[k] == (i, j);
    assert comps[k] == ComparePair(m, arms[i], arms[j], alpha, BonferroniAlpha(alpha, |arms|));
  }

  // ---------------------------------------------------------------- ARPU

  predicate IsArpuInput(groups: seq<Group>)
  {
    forall i :: 0 <= i < |groups| ==> groups[i].RevenueGroup? && RevenueInputOk(groups[i].users, groups[i].revenues)
  }

  ghost predicate IsArpuRows(m: Primitives, groups: seq<Group>, alpha: real, names: seq<Label>, rows: seq<Row<RevenueStats>>)
    requires Sound(m) && IsArpuInput(groups) && (names == [] || |groups| <= |names|)
  {
    && |rows| == |groups|
    && forall i :: 0 <= i < |rows| ==>
         rows[i] == Row(NameAt(names, i), RevenueStatsOf(m, groups[i].users, groups[i].revenues, alpha))
  }

  function ArpuArms(rows: seq<Row<RevenueStats>>): (r: seq<Arm>)
    ensures |r| == |rows|
    ensures forall i :: 0 <= i < |rows| ==> r[i] == Arm(rows[i].group, rows[i].stats.arpu, rows[i].stats.se)
  {
    seq(|rows|, i requires 0 <= i < |rows| => Arm(rows[i].group, rows[i].stats.arpu, rows[i].stats.se))
  }

  /** `compare_groups_arpu(groups, alpha, group_names)` */
  method CompareGroupsArpu(m: Primitives, groups: seq<Group>, alpha: real, names: seq<Label>)
    returns (rows: seq<Row<RevenueStats>>, comps: seq<Comparison>)
    requires Sound(m) && IsArpuInput(groups) && (names == [] || |groups| <= |names|)
    ensures IsArpuRows(m, groups, alpha, names, rows)
    ensures IsComparisonTable(m, ArpuArms(rows), alpha, comps)
  {
    rows := [];
    for i := 0 to |groups|
      invariant |rows| == i
      invariant forall q :: 0 <= q < i ==>
        rows[q] == Row(NameAt(names, q), RevenueStatsOf(m, groups[q].users, groups[q].revenues, alpha))
    {
      var stats := CalculateGroupStats(m, groups[i].users, groups[i].revenues, alpha);
      rows := rows + [Row(NameAt(names, i), stats)];
    }
    comps := PairwiseComparisons(m, ArpuArms(rows), alpha);
  }

  // ---------------------------------------------------------------- conversion rate

  /**
   * The `conversions` field a conversion-rate comparison reads from a group;
   * a revenue list is not an `int` and so fails the check.
   */
  function ConversionsOf(g: Group): (r: Json.Value)
    ensures g.ConversionGroup? ==> r == g.conversions
    ensures g.RevenueGroup? ==> r.Array?
  {
    match g
    case ConversionGroup(_, c) => c
    case RevenueGroup(_, rs) => Json.Array(seq(|rs|, k requires 0 <= k < |rs| => Json.Float(rs[k])))
  }

  function RateStatsOf(m: Primitives, g: Group, alpha: real): Result<RateStats, StatsError>
    requires Sound(m)
  {
    ConversionRateStats(m, g.users, ConversionsOf(g), alpha)
  }

  ghost predicate IsRateRows(m: Primitives, groups: seq<Group>, alpha: real, names: seq<Label>, rows: seq<Row<RateStats>>)
    requires Sound(m) && (names == [] || |groups| <= |names|)
  {
    && |rows| == |groups|
    && forall i :: 0 <= i < |rows| ==>
         RateStatsOf(m, groups[i], alpha).Success? && rows[i] == Row(NameAt(names, i), RateStatsOf(m, groups[i], alpha).value)
  }

  function RateArms(rows: seq<Row<RateStats>>): (r: seq<Arm>)
    ensures |r| == |rows|
    ensures forall i :: 0 <= i < |rows| ==> r[i] == Arm(rows[i].group, rows[i].stats.conversionRate, rows[i].stats.se)
  {
    seq(|rows|, i requires 0 <= i < |rows| => Arm(rows[i].group, rows[i].stats.conversionRate, rows[i].stats.se))
  }

  /** A comparison could not be made: the `ValueError` of group `index`. */
  datatype CompareError =
    | InvalidConversions(index: nat)
    | AnalysisTypeInvalid

  /**
   * `compare_groups_conversion_rate(groups, alpha, group_names)`: it raises on
   * the first group whose conversion count is not a non-negative integer.
   */
  method CompareGroupsConversionRate(m: Primitives, groups: seq<Group>, alpha: real, names: seq<Label>)
    returns (r: Result<(seq<Row<RateStats>>, seq<Comparison>), CompareError>)
    requires Sound(m) && (names == [] || |groups| <= |names|)
    ensures r.Success? <==> forall i :: 0 <= i < |groups| ==> RateStatsOf(m, groups[i], alpha).Success?
    ensures r.Success? ==> IsRateRows(m, groups, alpha, names, r.value.0)
    ensures r.Success? ==> IsComparisonTable(m, RateArms(r.value.0), alpha, r.value.1)
    ensures r.Failure? ==>
      && r.error.InvalidConversions?
      && r.error.index < |groups|
      && RateStatsOf(m, groups[r.error.index], alpha).Failure?
      && forall q :: 0 <= q < r.error.index ==> RateStatsOf(m, groups[q], alpha).Success?
  {
    var rows := [];
    for i := 0 to |groups|
      invariant |rows| == i
      invariant forall q :: 0 <= q < i ==>
        RateStatsOf(m, groups[q], alpha).Success? && rows[q] == Row(NameAt(names, q), RateStatsOf(m, groups[q], alpha).value)
    {
      var stats := ConversionRateStats(m, groups[i].users, ConversionsOf(groups[i]), alpha);
      if stats.Failure? {
        return Failure(InvalidConversions(i));
      }
      rows := rows + [Row(NameAt(names, i), stats.value)];
    }
    var comps := PairwiseComparisons(m, RateArms(rows), alpha);
    return Success((rows, comps));
  }

  // ---------------------------------------------------------------- dispatch

  /** The two result shapes of `compare_groups`. */
  datatype Analysis =
    | ArpuResult(revenueRows: seq<Row<RevenueStats>>, comparisons: seq<Comparison>)
    | RateResult(rateRows: seq<Row<RateStats>>, comparisons: seq<Comparison>)

  /** `compare_groups(groups, alpha, analysis_type, group_names)` */
  method CompareGroups(m: Primitives, groups: seq<Group>, alpha: real, analysisType: string, names: seq<Label>)
    returns (r: Result<Analysis, CompareError>)
    requires Sound(m) && (names == [] || |groups| <= |names|)
    requires analysisType == "arpu" ==> IsArpuInput(groups)
    ensures analysisType != "arpu" && analysisType != "conversion_rate" <==> r == Failure(AnalysisTypeInvalid)
    ensures analysisType == "arpu" ==>
      && r.Success? && r.value.ArpuResult?
      && IsArpuRows(m, groups, alpha, names, r.value.revenueRows)
      && IsComparisonTable(m, ArpuArms(r.value.revenueRows), alpha, r.value.comparisons)
    ensures analysisType == "conversion_rate" && r.Success? ==>
      && r.value.RateResult?
      && IsRateRows(m, groups, alpha, names, r.value.rateRows)
      && IsComparisonTable(m, RateArms(r.value.rateRows), alpha, r.value.comparisons)
    ensures analysisType == "conversion_rate" ==>
      (r.Success? <==> forall i :: 0 <= i < |groups| ==> RateStatsOf(m, groups[i], alpha).Success?)
    ensures analysisType == "conversion_rate" && r.Failure? ==>
      && r.error.InvalidConversions?
      && r.error.index < |groups|
      && RateStatsOf(m, groups[r.error.index], alpha).Failure?
      && forall q :: 0 <= q < r.error.index ==> RateStatsOf(m, groups[q], alpha).Success?
  {
    if analysisType == "arpu" {
      var rows, comps := CompareGroupsArpu(m, groups, alpha, names);
      r := Success(ArpuResult(rows, comps));
    } else if analysisType == "conversion_rate" {
      var res := CompareGroupsConversionRate(m, groups, alpha, names);
      if res.Success? {
        r := Success(RateResult(res.value.0, res.value.1));
      } else {
        r := Failure(res.error);
      }
    } else {
      r := Failure(AnalysisTypeInvalid);
    }
  }
}
