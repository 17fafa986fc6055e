/**
 * The `summary` block of `save_results_to_json` (best group by `idxmax`,
 * number of significant comparisons) and the significant-winner rule of the
 * command-line conclusion.
 */
module Summary {
  import opened Comparison
  import opened GroupStats

  /** `Series.idxmax()`: the first position holding the largest value. */
  function FirstArgMax(s: seq<real>): (k: nat)
    requires |s| > 0
    ensures k < |s|
    ensures forall i :: 0 <= i < |s| ==> s[i] <= s[k]
    ensures forall i :: 0 <= i < k ==> s[i] < s[k]
  {
    if |s| == 1 then 0
    else
      var k := FirstArgMax(s[..|s| - 1]);
      if s[|s| - 1] > s[k] then |s| - 1 else k
  }

  /** `comparison_results['Significant'].sum()` */
  function CountSignificant(cs: seq<Comparison>): (r: nat)
    ensures r <= |cs|
  {
    if cs == [] then 0
    else CountSignificant(cs[..|cs| - 1]) + (if cs[|cs| - 1].significant then 1 else 0)
  }

  /** The positions of the significant comparisons. */
  ghost function SignificantIndices(cs: seq<Comparison>): set<nat>
  {
    set k: nat | k < |cs| && cs[k].significant
  }

  /** The significant-comparisons count is the number of records marked significant. */
  lemma {:induction false} CountSignificantIsCardinality(cs: seq<Comparison>)
    ensures CountSignificant(cs) == |SignificantIndices(cs)|
  {
    if cs != [] {
      var init := cs[..|cs| - 1];
      CountSignificantIsCardinality(init);
      var last := |cs| - 1;
      if cs[last].significant {
        assert SignificantIndices(cs) == SignificantIndices(init) + {last};
        assert last !in SignificantIndices(init);
      } else {
        assert SignificantIndices(cs) == SignificantIndices(init);
      }
    }
  }

  /** The count is zero exactly when no comparison is significant. */
  lemma {:induction false} CountSignificantZero(cs: seq<Comparison>)
    ensures CountSignificant(cs) == 0 <==> forall k :: 0 <= k < |cs| ==> !cs[k].significant
  {
    if cs != [] {
      CountSignificantZero(cs[..|cs| - 1]);
      assert forall k :: 0 <= k < |cs| - 1 ==> cs[..|cs| - 1][k] == cs[k];
    }
  }

  datatype Summary = Summary(totalGroups: nat, bestGroup: Label, bestValue: real, significantComparisons: nat)

  /** The metric column the summary ranks by: `arpu` or `conversion_rate`. */
  function MetricArms(a: Analysis): (r: seq<Arm>)
    ensures a.ArpuResult? ==> r == ArpuArms(a.revenueRows)
    ensures a.RateResult? ==> r == RateArms(a.rateRows)
  {
    match a
    case ArpuResult(rows, _) => ArpuArms(rows)
    case RateResult(rows, _) => RateArms(rows)
  }

  function Metrics(arms: seq<Arm>): (r: seq<real>)
    ensures |r| == |arms| && forall i :: 0 <= i < |arms| ==> r[i] == arms[i].metric
  {
    seq(|arms|, i requires 0 <= i < |arms| => arms[i].metric)
  }

  /**
   * The `summary` block. pandas needs a non-empty group table for `idxmax`
   * and a non-empty comparison table for its `Significant` column.
   */
  function Summarize(a: Analysis): (r: Summary)
    requires |MetricArms(a)| > 0 && |a.comparisons| > 0
    ensures r.totalGroups == |MetricArms(a)|
    ensures exists k ::
      && 0 <= k < |MetricArms(a)|
      && r.bestGroup == MetricArms(a)[k].group && r.bestValue == MetricArms(a)[k].metric
      && (forall i :: 0 <= i < |MetricArms(a)| ==> MetricArms(a)[i].metric <= r.bestValue)
      && (forall i :: 0 <= i < k ==> MetricArms(a)[i].metric < r.bestValue)
    ensures r.significantComparisons == |SignificantIndices(a.comparisons)|
  {
    var arms := MetricArms(a);
    var k := FirstArgMax(Metrics(arms));
    CountSignificantIsCardinality(a.comparisons);
    Summary(|arms|, arms[k].group, arms[k].metric, CountSignificant(a.comparisons))
  }

  /** The group a significant comparison favours: `Group A` if the difference is positive, else `Group B`. */
  function Winner(c: Comparison): (w: Label)
    ensures c.difference > 0.0 ==> w == c.groupA
    ensures c.difference <= 0.0 ==> w == c.groupB
  {
    if c.difference > 0.0 then c.groupA else c.groupB
  }

  /** The set `winners` of the conclusion: the favoured group of every significant comparison. */
  function SignificantWinners(cs: seq<Comparison>): (r: set<Label>)
    ensures forall k :: 0 <= k < |cs| && cs[k].significant ==> Winner(cs[k]) in r
    ensures forall w :: w in r ==> exists k :: 0 <= k < |cs| && cs[k].significant && Winner(cs[k]) == w
  {
    set k | 0 <= k < |cs| && cs[k].significant :: Winner(cs[k])
  }

  /** "No statistically significant winner" exactly when no comparison is significant. */
  lemma NoWinnerIffNoneSignificant(cs: seq<Comparison>)
    ensures SignificantWinners(cs) == {} <==> CountSignificant(cs) == 0
  {
    CountSignificantZero(cs);
    if CountSignificant(cs) != 0 {
      var k :| 0 <= k < |cs| && cs[k].significant;
      assert Winner(cs[k]) in SignificantWinners(cs);
    }
  }

  /**
   * In a comparison table every winner really did better in the comparison
   * that made it one: its metric is strictly larger than the other group's.
   */
  lemma WinnersHaveLargerMetric(m: Numerics.Primitives, arms: seq<Arm>, alpha: real, comps: seq<Comparison>, k: nat)
    requires Numerics.Sound(m) && IsComparisonTable(m, arms, alpha, comps)
    requires k < |comps| && comps[k].significant && BonferroniAlpha(alpha, |arms|) <= 1.0
    ensures comps[k].metricA != comps[k].metricB
    ensures comps[k].difference > 0.0 ==> comps[k].metricA > comps[k].metricB
    ensures comps[k].difference <= 0.0 ==> comps[k].metricB > comps[k].metricA
  {
    var pairs := Pairs.Combinations2(|arms|);
    var a, b := arms[pairs[k].0], arms[pairs[k].1];
    if a.metric == b.metric {
      EqualMetricsNotSignificant(m, a, b, alpha, BonferroniAlpha(alpha, |arms|));
    }
  }
}
