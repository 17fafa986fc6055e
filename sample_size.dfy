/**
 * `SampleSizeCalculator`: the critical values fixed at construction, the
 * conversion-rate and ARPU sample sizes, the power of a given sample size and
 * the table of sample sizes over several lifts.
 */
module SampleSize {
  import opened Wrappers
  import opened Numerics

  /** `math.ceil` as an integer. */
  function Ceil(x: real): (n: int)
    ensures x <= n as real < x + 1.0
  {
    -((-x).Floor)
  }

  /** Python's `int()` on a float: truncation toward zero. */
  function Trunc(x: real): (n: int)
    ensures x >= 0.0 ==> 0 <= n && n as real <= x < n as real + 1.0
    ensures x < 0.0 ==> n <= 0 && n as real - 1.0 < x <= n as real
  {
    if x >= 0.0 then x.Floor else -((-x).Floor)
  }

  /** The calculator's fields; they are set in `__init__` and only read afterwards. */
  datatype Calculator = Calculator(
    confidenceLevel: real,
    power: real,
    alpha: real,
    beta: real,
    zAlpha: real,
    zBeta: real,
    zAlphaPlusBeta: real)

  /** `SampleSizeCalculator(confidence_level, power)` */
  function NewCalculator(m: Primitives, confidenceLevel: real, power: real): (c: Calculator)
    requires Sound(m)
    ensures c.confidenceLevel == confidenceLevel && c.power == power
    ensures c.alpha + confidenceLevel == 1.0 && c.beta + power == 1.0
    ensures c.zAlpha == Critical(m, c.alpha) == m.ppf((1.0 + confidenceLevel) / 2.0)
    ensures c.zBeta == m.ppf(power)
    ensures c.zAlphaPlusBeta == c.zAlpha + c.zBeta
    ensures confidenceLevel >= 0.0 ==> c.zAlpha >= 0.0
    ensures power >= 0.5 ==> c.zBeta >= 0.0
  {
    var alpha := 1.0 - confidenceLevel;
    var beta := 1.0 - power;
    var zAlpha := m.ppf(1.0 - alpha / 2.0);
    var zBeta := m.ppf(1.0 - beta);
    assert 1.0 - beta == power;
    Calculator(confidenceLevel, power, alpha, beta, zAlpha, zBeta, zAlpha + zBeta)
  }

  datatype TestType = ConversionRateTest | ArpuTest

  /** The keys `calculate_arpu_sample_size` adds to the delegate's result. */
  datatype ArpuDetails = ArpuDetails(
    controlArpu: real,
    treatmentArpu: real,
    price: real,
    controlConversionRate: real,
    treatmentConversionRate: real)

  /** The result dictionary of a sample-size calculation. */
  datatype SizeResult = SizeResult(
    testType: TestType,
    controlRate: real,
    treatmentRate: real,
    liftPercentage: real,
    confidenceLevel: real,
    power: real,
    allocationRatio: real,
    totalSampleSize: int,
    controlSize: int,
    treatmentSize: int,
    expectedControlConversions: int,
    expectedTreatmentConversions: int,
    minimumDetectableEffect: real,
    arpu: Option<ArpuDetails>)

  /** The `ValueError`s of the calculator, and the `TypeError` of a missing price. */
  datatype SizingError =
    | ControlRateOutOfRange
    | LiftNotPositive
    | AllocationOutOfRange
    | ControlArpuNotPositive
    | PriceNotPositive
    | PriceMissing

  predicate ValidConversionInput(controlRate: real, lift: real, allocationRatio: real)
  {
    0.0 < controlRate < 1.0 && lift > 0.0 && 0.0 < allocationRatio < 1.0
  }

  /** `pooled_rate * (1 - pooled_rate)` for the mean of the two rates. */
  function PooledVariance(controlRate: real, treatmentRate: real): (v: real)
    ensures 0.0 <= (controlRate + treatmentRate) / 2.0 <= 1.0 ==> v >= 0.0
    ensures 0.0 < (controlRate + treatmentRate) / 2.0 < 1.0 ==> v > 0.0
  {
    var pooledRate := (controlRate + treatmentRate) / 2.0;
    assert 0.0 <= pooledRate <= 1.0 ==> pooledRate * (1.0 - pooledRate) >= 0.0 by {
      if 0.0 <= pooledRate <= 1.0 { NonNegativeProduct(pooledRate, 1.0 - pooledRate); }
    }
    assert 0.0 < pooledRate < 1.0 ==> pooledRate * (1.0 - pooledRate) > 0.0 by {
      if 0.0 < pooledRate < 1.0 { PositiveProduct(pooledRate, 1.0 - pooledRate); }
    }
    pooledRate * (1.0 - pooledRate)
  }

  /**
   * `z^2 * variance * (1 + 1/alloc) / effect^2`, dividing by the effect twice
   * (the same real number).
   */
  function SizeFormula(z: real, variance: real, allocationRatio: real, effect: real): (q: real)
    requires allocationRatio > 0.0 && effect > 0.0
  {
    (z * z) * variance * (1.0 + 1.0 / allocationRatio) / effect / effect
  }

  /** The formula is not negative when the variance is not. */
  lemma SizeFormulaNonNegative(z: real, variance: real, allocationRatio: real, effect: real)
    requires allocationRatio > 0.0 && effect > 0.0 && variance >= 0.0
    ensures SizeFormula(z, variance, allocationRatio, effect) >= 0.0
  {
    var spread := 1.0 + 1.0 / allocationRatio;
    SquareNonNegative(z);
    PositiveQuotient(1.0, allocationRatio);
    NonNegativeProduct(z * z, variance);
    NonNegativeProduct(z * z * variance, spread);
    NonNegativeQuotient(z * z * variance * spread, effect);
    NonNegativeQuotient(z * z * variance * spread / effect, effect);
  }

  /** The relative lift: `treatment_rate = control_rate * (1 + lift)`, an effect of `control_rate * lift`. */
  function TreatmentRate(controlRate: real, lift: real): (t: real)
    ensures t - controlRate == controlRate * lift
    ensures controlRate > 0.0 && lift > 0.0 ==> t > controlRate
  {
    assert controlRate > 0.0 && lift > 0.0 ==> controlRate * lift > 0.0 by {
      if controlRate > 0.0 && lift > 0.0 { PositiveProduct(controlRate, lift); }
    }
    controlRate * (1.0 + lift)
  }

  /** `int(np.ceil(numerator / denominator))` */
  function TotalSampleSize(c: Calculator, controlRate: real, lift: real, allocationRatio: real): (n: int)
    requires ValidConversionInput(controlRate, lift, allocationRatio)
    ensures var treatmentRate := TreatmentRate(controlRate, lift);
      var q := SizeFormula(c.zAlphaPlusBeta, PooledVariance(controlRate, treatmentRate), allocationRatio, treatmentRate - controlRate);
      q <= n as real < q + 1.0
    ensures TreatmentRate(controlRate, lift) <= 1.0 ==> n >= 0
  {
    var treatmentRate := TreatmentRate(controlRate, lift);
    var q := SizeFormula(c.zAlphaPlusBeta, PooledVariance(controlRate, treatmentRate), allocationRatio, treatmentRate - controlRate);
    assert treatmentRate <= 1.0 ==> q >= 0.0 by {
      if treatmentRate <= 1.0 {
        SizeFormulaNonNegative(c.zAlphaPlusBeta, PooledVariance(controlRate, treatmentRate), allocationRatio, treatmentRate - controlRate);
      }
    }
    Ceil(q)
  }

  /**
   * `first = int(n * (1 - allocation_ratio))` and `n - first`: the control and
   * treatment sizes, or `n1` and `n2` of the power analysis.
   */
  function AllocationSplit(n: int, allocationRatio: real): (r: (int, int))
    ensures r.0 + r.1 == n
    ensures n >= 0 && 0.0 < allocationRatio < 1.0 ==>
      && 0 <= r.0 && r.0 as real <= n as real * (1.0 - allocationRatio) < r.0 as real + 1.0
      && r.1 as real >= n as real * allocationRatio
  {
    var first := Trunc(n as real * (1.0 - allocationRatio));
    assert n >= 0 && 0.0 < allocationRatio < 1.0 ==> n as real * (1.0 - allocationRatio) >= 0.0 by {
      if n >= 0 && 0.0 < allocationRatio < 1.0 { NonNegativeProduct(n as real, 1.0 - allocationRatio); }
    }
    assert n as real * (1.0 - allocationRatio) == n as real - n as real * allocationRatio;
    (first, n - first)
  }

  /** `int(size * rate)` */
  function ExpectedConversions(size: int, rate: real): (n: int)
    ensures size >= 0 && rate >= 0.0 ==> 0 <= n && n as real <= size as real * rate < n as real + 1.0
  {
    assert size >= 0 && rate >= 0.0 ==> size as real * rate >= 0.0 by {
      if size >= 0 && rate >= 0.0 { NonNegativeProduct(size as real, rate); }
    }
    Trunc(size as real * rate)
  }

  /** The sizing once the inputs have passed the checks. */
  function Sizing(c: Calculator, controlRate: real, lift: real, allocationRatio: real): (r: SizeResult)
    requires ValidConversionInput(controlRate, lift, allocationRatio)
    ensures r.testType == ConversionRateTest && r.arpu.None?
    ensures r.controlRate == controlRate && r.liftPercentage == lift && r.allocationRatio == allocationRatio
    ensures r.confidenceLevel == c.confidenceLevel && r.power == c.power
    ensures r.treatmentRate == TreatmentRate(controlRate, lift)
    ensures r.minimumDetectableEffect == r.treatmentRate - controlRate == controlRate * lift
    ensures r.minimumDetectableEffect > 0.0
    ensures r.totalSampleSize == TotalSampleSize(c, controlRate, lift, allocationRatio)
    ensures (r.controlSize, r.treatmentSize) == AllocationSplit(r.totalSampleSize, allocationRatio)
    ensures r.expectedControlConversions == ExpectedConversions(r.controlSize, controlRate)
    ensures r.expectedTreatmentConversions == ExpectedConversions(r.treatmentSize, r.treatmentRate)
  {
    var treatmentRate := TreatmentRate(controlRate, lift);
    var total := TotalSampleSize(c, controlRate, lift, allocationRatio);
    var (controlSize, treatmentSize) := AllocationSplit(total, allocationRatio);
    SizeResult(ConversionRateTest, controlRate, treatmentRate, lift, c.confidenceLevel, c.power,
      allocationRatio, total, controlSize, treatmentSize,
      ExpectedConversions(controlSize, controlRate), ExpectedConversions(treatmentSize, treatmentRate),
      treatmentRate - controlRate, None)
  }

  /**
   * The sizes of a conversion-rate test: the total is non-negative whenever
   * the treatment rate is a rate, and it is split exactly between the arms,
   * the control arm getting the rounded-down share `total * (1 - allocation)`.
   */
  lemma SizingBounds(c: Calculator, controlRate: real, lift: real, allocationRatio: real)
    requires ValidConversionInput(controlRate, lift, allocationRatio)
    requires TreatmentRate(controlRate, lift) <= 1.0
    ensures var r := Sizing(c, controlRate, lift, allocationRatio);
      && r.totalSampleSize >= 0
      && r.controlSize + r.treatmentSize == r.totalSampleSize
      && 0 <= r.controlSize && r.controlSize as real <= r.totalSampleSize as real * (1.0 - allocationRatio)
      && r.treatmentSize as real >= r.totalSampleSize as real * allocationRatio
      && 0 <= r.treatmentSize
  {
    var r := Sizing(c, controlRate, lift, allocationRatio);
    NonNegativeProduct(r.totalSampleSize as real, allocationRatio);
  }

  /** `calculate_conversion_rate_sample_size(control_rate, lift_percentage, allocation_ratio)` */
  function ConversionRateSampleSize(c: Calculator, controlRate: real, lift: real, allocationRatio: real)
    : (r: Result<SizeResult, SizingError>)
    ensures r.Success? <==> ValidConversionInput(controlRate, lift, allocationRatio)
    ensures !(0.0 < controlRate < 1.0) ==> r == Failure(ControlRateOutOfRange)
    ensures 0.0 < controlRate < 1.0 && lift <= 0.0 ==> r == Failure(LiftNotPositive)
    ensures 0.0 < controlRate < 1.0 && lift > 0.0 && !(0.0 < allocationRatio < 1.0) ==> r == Failure(AllocationOutOfRange)
    ensures r.Success? ==> r.value == Sizing(c, controlRate, lift, allocationRatio)
  {
    if !(0.0 < controlRate < 1.0) then Failure(ControlRateOutOfRange)
    else if lift <= 0.0 then Failure(LiftNotPositive)
    else if !(0.0 < allocationRatio < 1.0) then Failure(AllocationOutOfRange)
    else
      Success(Sizing(c, controlRate, lift, allocationRatio))
  }

  /**
   * `calculate_arpu_sample_size(control_arpu, lift_percentage, price,
   * allocation_ratio)`; a missing price fails the comparison `price <= 0`.
   */
  function ArpuSampleSize(c: Calculator, controlArpu: real, lift: real, price: Option<real>, allocationRatio: real)
    : (r: Result<SizeResult, SizingError>)
    ensures r.Success? <==>
      controlArpu > 0.0 && lift > 0.0 && price.Some? && price.value > 0.0
      && 0.0 < allocationRatio < 1.0 && controlArpu < price.value
    ensures controlArpu <= 0.0 ==> r == Failure(ControlArpuNotPositive)
    ensures controlArpu > 0.0 && lift <= 0.0 ==> r == Failure(LiftNotPositive)
    ensures controlArpu > 0.0 && lift > 0.0 && price.None? ==> r == Failure(PriceMissing)
    ensures controlArpu > 0.0 && lift > 0.0 && price.Some? && price.value <= 0.0 ==> r == Failure(PriceNotPositive)
    ensures (controlArpu > 0.0 && lift > 0.0 && price.Some? && price.value > 0.0
             && !(0.0 < allocationRatio < 1.0)) ==> r == Failure(AllocationOutOfRange)
    ensures (controlArpu > 0.0 && lift > 0.0 && price.Some? && price.value > 0.0
             && 0.0 < allocationRatio < 1.0 && controlArpu >= price.value) ==> r == Failure(ControlRateOutOfRange)
    ensures r.Success? ==>
      var p := price.value;
      var delegate := ConversionRateSampleSize(c, controlArpu / p, lift, allocationRatio);
      && delegate.Success?
      && r.value == delegate.value.(testType := ArpuTest, arpu := r.value.arpu)
      && r.value.arpu == Some(ArpuDetails(controlArpu, controlArpu * (1.0 + lift), p, controlArpu / p, controlArpu * (1.0 + lift) / p))
  {
    if controlArpu <= 0.0 then Failure(ControlArpuNotPositive)
    else if lift <= 0.0 then Failure(LiftNotPositive)
    else if price.None? then Failure(PriceMissing)
    else if price.value <= 0.0 then Failure(PriceNotPositive)
    else if !(0.0 < allocationRatio < 1.0) then Failure(AllocationOutOfRange)
    else
      var p := price.value;
      var treatmentArpu := controlArpu * (1.0 + lift);
      var controlConversionRate := controlArpu / p;
      var treatmentConversionRate := treatmentArpu / p;
      PositiveQuotient(controlArpu, p);
      QuotientBelowOne(controlArpu, p);
      match ConversionRateSampleSize(c, controlConversionRate, lift, allocationRatio)
      case Failure(e) => Failure(e)
      case Success(delegate) =>
        Success(delegate.(testType := ArpuTest,
          arpu := Some(ArpuDetails(controlArpu, treatmentArpu, p, controlConversionRate, treatmentConversionRate))))
  }

  lemma QuotientBelowOne(a: real, p: real)
    requires p > 0.0
    ensures a / p < 1.0 <==> a < p
  {
    assert (a / p) * p == a;
    if a / p < 1.0 {
      assert (a / p) * p < 1.0 * p;
    } else {
      assert (a / p) * p >= 1.0 * p;
    }
  }

  /**
   * The ARPU reduction is consistent: the treatment ARPU over the price is
   * the treatment rate the delegate computed from the control rate.
   */
  lemma ArpuRatesAgree(c: Calculator, controlArpu: real, lift: real, price: Option<real>, allocationRatio: real)
    requires ArpuSampleSize(c, controlArpu, lift, price, allocationRatio).Success?
    ensures var r := ArpuSampleSize(c, controlArpu, lift, price, allocationRatio).value;
      && r.arpu.value.treatmentConversionRate == r.treatmentRate
      && r.arpu.value.controlConversionRate == r.controlRate
  {
    var p := price.value;
    var r := ArpuSampleSize(c, controlArpu, lift, price, allocationRatio).value;
    var delegate := ConversionRateSampleSize(c, controlArpu / p, lift, allocationRatio).value;
    assert r.treatmentRate == delegate.treatmentRate == TreatmentRate(controlArpu / p, lift);
    ScaleQuotient(controlArpu, 1.0 + lift, p);
  }

  lemma ScaleQuotient(a: real, k: real, p: real)
    requires p > 0.0
    ensures (a * k) / p == (a / p) * k
  {
  }

  /**
   * What the power formula needs and the source does not check: a pooled rate
   * strictly between 0 and 1 (else `np.sqrt` of a non-positive variance) and
   * two non-empty arms (else `1/n1` or `1/n2` divides by zero).
   */
  predicate PowerDefined(controlRate: real, lift: real, sampleSize: int, allocationRatio: real)
  {
    var pooledRate := (controlRate + TreatmentRate(controlRate, lift)) / 2.0;
    var (n1, n2) := AllocationSplit(sampleSize, allocationRatio);
    0.0 < pooledRate < 1.0 && n1 >= 1 && n2 >= 1
  }

  /** The keys the ARPU power analysis adds to the delegate's result. */
  datatype ArpuPowerDetails = ArpuPowerDetails(controlArpu: real, treatmentArpu: real, price: real)

  datatype PowerResult = PowerResult(
    testType: TestType,
    controlRate: real,
    treatmentRate: real,
    liftPercentage: real,
    sampleSize: int,
    power: real,
    effectSize: real,
    standardError: real,
    arpu: Option<ArpuPowerDetails>)

  /** `np.sqrt(pooled_variance * (1/n1 + 1/n2))` */
  function PowerStandardError(m: Primitives, variance: real, n1: int, n2: int): (se: real)
    requires Sound(m) && variance > 0.0 && n1 >= 1 && n2 >= 1
    ensures se > 0.0
    ensures se * se == variance * (1.0 / n1 as real + 1.0 / n2 as real)
  {
    var spread := 1.0 / n1 as real + 1.0 / n2 as real;
    PositiveQuotient(1.0, n1 as real);
    PositiveQuotient(1.0, n2 as real);
    PositiveProduct(variance, spread);
    m.sqrt(variance * spread)
  }

  /** `norm.cdf(effect / se - z_alpha)` */
  function Power(m: Primitives, c: Calculator, effect: real, se: real): (p: real)
    requires Sound(m) && se > 0.0
    ensures 0.0 <= p <= 1.0
    ensures effect / se >= c.zAlpha ==> p >= 0.5
  {
    var zPower := effect / se - c.zAlpha;
    assert zPower >= 0.0 ==> m.cdf(zPower) >= 0.5 by {
      if zPower >= 0.0 { CdfAtLeastHalf(m, zPower); }
    }
    m.cdf(zPower)
  }

  /** A larger effect at the same standard error never has less power. */
  lemma PowerMonotone(m: Primitives, c: Calculator, effect1: real, effect2: real, se: real)
    requires Sound(m) && se > 0.0 && effect1 <= effect2
    ensures Power(m, c, effect1, se) <= Power(m, c, effect2, se)
  {
    QuotientMonotone(effect1, effect2, se);
  }

  lemma QuotientMonotone(a: real, b: real, s: real)
    requires a <= b && s > 0.0
    ensures a / s <= b / s
  {
    assert b / s - a / s == (b - a) / s;
    NonNegativeQuotient(b - a, s);
  }

  /** The conversion-rate branch of `calculate_power_analysis`. */
  function RatePower(m: Primitives, c: Calculator, controlRate: real, lift: real, sampleSize: int, allocationRatio: real)
    : (r: PowerResult)
    requires Sound(m) && PowerDefined(controlRate, lift, sampleSize, allocationRatio)
    ensures r.testType == ConversionRateTest && r.arpu.None?
    ensures r.controlRate == controlRate && r.liftPercentage == lift && r.sampleSize == sampleSize
    ensures r.treatmentRate == TreatmentRate(controlRate, lift)
    ensures r.effectSize == r.treatmentRate - controlRate == controlRate * lift
    ensures var (n1, n2) := AllocationSplit(sampleSize, allocationRatio);
      r.standardError == PowerStandardError(m, PooledVariance(controlRate, r.treatmentRate), n1, n2)
    ensures r.standardError > 0.0
    ensures r.power == Power(m, c, r.effectSize, r.standardError)
  {
    var treatmentRate := TreatmentRate(controlRate, lift);
    var effectSize := treatmentRate - controlRate;
    var (n1, n2) := AllocationSplit(sampleSize, allocationRatio);
    var se := PowerStandardError(m, PooledVariance(controlRate, treatmentRate), n1, n2);
    PowerResult(ConversionRateTest, controlRate, treatmentRate, lift, sampleSize,
      Power(m, c, effectSize, se), effectSize, se, None)
  }

  /** What `calculate_power_analysis` needs of its inputs for the given test type. */
  predicate PowerInputOk(testType: string, controlValue: real, lift: real, sampleSize: int,
                         allocationRatio: real, price: Option<real>)
  {
    && (testType == "conversion_rate" ==> PowerDefined(controlValue, lift, sampleSize, allocationRatio))
    && (testType == "arpu" && price.Some? ==>
          price.value != 0.0 && PowerDefined(controlValue / price.value, lift, sampleSize, allocationRatio))
  }

  /**
   * `calculate_power_analysis(test_type, control_value, lift_percentage,
   * sample_size, allocation_ratio, price)`; any other test type falls
   * through and returns `None`.
   */
  function PowerAnalysis(m: Primitives, c: Calculator, testType: string, controlValue: real, lift: real,
                         sampleSize: int, allocationRatio: real, price: Option<real>)
    : (r: Result<Option<PowerResult>, SizingError>)
    requires Sound(m) && PowerInputOk(testType, controlValue, lift, sampleSize, allocationRatio, price)
    ensures testType != "conversion_rate" && testType != "arpu" ==> r == Success(None)
    ensures testType == "arpu" && price.None? ==> r == Failure(PriceMissing)
    ensures testType == "conversion_rate" ==> r == Success(Some(RatePower(m, c, controlValue, lift, sampleSize, allocationRatio)))
    ensures testType == "arpu" && price.Some? ==>
      var p := price.value;
      var delegate := RatePower(m, c, controlValue / p, lift, sampleSize, allocationRatio);
      && r.Success? && r.value.Some?
      && r.value.value == delegate.(testType := ArpuTest, arpu := r.value.value.arpu)
      && r.value.value.arpu == Some(ArpuPowerDetails(controlValue, controlValue * (1.0 + lift), p))
      && 0.0 <= r.value.value.power <= 1.0
  {
    if testType == "conversion_rate" then
      Success(Some(RatePower(m, c, controlValue, lift, sampleSize, allocationRatio)))
    else if testType == "arpu" then
      if price.None? then Failure(PriceMissing)
      else
        var p := price.value;
        var delegate := RatePower(m, c, controlValue / p, lift, sampleSize, allocationRatio);
        Success(Some(delegate.(testType := ArpuTest,
          arpu := Some(ArpuPowerDetails(controlValue, controlValue * (1.0 + lift), p)))))
    else Success(None)
  }

  /** One row of the table: conversion-rate sizing, or ARPU sizing for any other test type. */
  function SingleLift(c: Calculator, testType: string, controlValue: real, lift: real,
                      allocationRatio: real, price: Option<real>): (r: Result<SizeResult, SizingError>)
    ensures testType == "conversion_rate" ==> r == ConversionRateSampleSize(c, controlValue, lift, allocationRatio)
    ensures testType != "conversion_rate" ==> r == ArpuSampleSize(c, controlValue, lift, price, allocationRatio)
  {
    if testType == "conversion_rate" then ConversionRateSampleSize(c, controlValue, lift, allocationRatio)
    else ArpuSampleSize(c, controlValue, lift, price, allocationRatio)
  }

  datatype SizeTable = SizeTable(
    testType: string,
    controlValue: real,
    lifts: seq<real>,
    confidenceLevel: real,
    power: real,
    allocationRatio: real,
    price: Option<real>,
    results: seq<SizeResult>)

  /** `create_sample_size_table(test_type, control_value, lifts, allocation_ratio, price)` */
  method SampleSizeTable(c: Calculator, testType: string, controlValue: real, lifts: seq<real>,
                         allocationRatio: real, price: Option<real>)
    returns (r: Result<SizeTable, SizingError>)
    ensures r.Success? <==>
      forall k :: 0 <= k < |lifts| ==> SingleLift(c, testType, controlValue, lifts[k], allocationRatio, price).Success?
    ensures r.Success? ==>
      && r.value.testType == testType && r.value.controlValue == controlValue && r.value.lifts == lifts
      && r.value.confidenceLevel == c.confidenceLevel && r.value.power == c.power
      && r.value.allocationRatio == allocationRatio && r.value.price == price
      && |r.value.results| == |lifts|
      && forall k :: 0 <= k < |lifts| ==>
           SingleLift(c, testType, controlValue, lifts[k], allocationRatio, price) == Success(r.value.results[k])
    ensures r.Failure? ==> exists k ::
      && 0 <= k < |lifts|
      && SingleLift(c, testType, controlValue, lifts[k], allocationRatio, price) == Failure(r.error)
      && forall q :: 0 <= q < k ==> SingleLift(c, testType, controlValue, lifts[q], allocationRatio, price).Success?
  {
    var results: seq<SizeResult> := [];
    for k := 0 to |lifts|
      invariant |results| == k
      invariant forall q :: 0 <= q < k ==>
        SingleLift(c, testType, controlValue, lifts[q], allocationRatio, price) == Success(results[q])
    {
      var result: Result<SizeResult, SizingError>;
      if testType == "conversion_rate" {
        result := ConversionRateSampleSize(c, controlValue, lifts[k], allocationRatio);
      } else {
        result := ArpuSampleSize(c, controlValue, lifts[k], price, allocationRatio);
      }
      if result.Failure? {
        return Failure(result.error);
      }
      results := results + [result.value];
    }
    r := Success(SizeTable(testType, controlValue, lifts, c.confidenceLevel, c.power, allocationRatio, price, results));
  }
}
