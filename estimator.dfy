/**
 * The asset specification table and the success-rate estimator:
 * base kill probability x range factor x weather factor, with a fixed
 * default for classes the table does not list.
 */
module Estimator {
  import opened Wrappers
  import opened Numeric
  import opened Domain

  /** The two table columns the estimator reads. */
  datatype SpecEntry = SpecEntry(pkBase: real, optimalRangeKm: real)

  /** The static table; the gun system and electronic warfare are not listed. */
  function SystemSpec(s: SystemType): (r: Option<SpecEntry>)
    ensures r.None? <==> s == Zu23 || s == Bukovel
    ensures r.Some? ==> 0.0 < r.value.pkBase <= 0.95 && r.value.optimalRangeKm > 0.0
  {
    match s
    case Patriot => Some(SpecEntry(0.95, 80.0))
    case IrisT => Some(SpecEntry(0.93, 25.0))
    case BukM1 => Some(SpecEntry(0.85, 20.0))
    case Stinger => Some(SpecEntry(0.70, 3.0))
    case Igla => Some(SpecEntry(0.65, 3.5))
    case InterceptorDrone => Some(SpecEntry(0.60, 15.0))
    case MobileGroup => Some(SpecEntry(0.35, 2.0))
    case Helicopter => Some(SpecEntry(0.50, 8.0))
    case Zu23 => None
    case Bukovel => None
  }

  const DefaultSuccessRate: real := 0.75

  /** The exact weather labels under which the helicopter can barely operate. */
  const AdverseWeather: seq<string> := ["Heavy clouds", "Rain", "Fog"]

  /**
   * Beyond the optimal range the factor falls linearly with the overshoot,
   * floored at 0.6; at or inside it, it rises from 0.85 toward 1.0.
   */
  function RangeFactor(optimal: real, rangeKm: real): (f: real)
    requires optimal > 0.0
    ensures rangeKm > optimal ==> 0.6 <= f < 1.0
    ensures rangeKm <= optimal ==> 0.85 <= f <= 1.0
  {
    if rangeKm > optimal then
      RealMax(0.6, 1.0 - (rangeKm - optimal) / (optimal * 2.0))
    else
      RealMin(1.0, 0.85 + (optimal - rangeKm) / optimal * 0.15)
  }

  function WeatherFactor(s: SystemType, weather: string): (f: real)
    ensures f == 1.0 || f == 0.3
    ensures f == 0.3 <==> s == Helicopter && weather in AdverseWeather
  {
    if s == Helicopter && weather in AdverseWeather then 0.3 else 1.0
  }

  /** The estimate before weather: base probability times range factor. */
  function RangeAdjusted(spec: SpecEntry, rangeKm: real): (p: real)
    requires 0.0 < spec.pkBase <= 0.95 && spec.optimalRangeKm > 0.0
    ensures 0.0 <= p <= spec.pkBase
  {
    Product(spec.pkBase, RangeFactor(spec.optimalRangeKm, rangeKm))
  }

  /**
   * Estimated kill probability for one system class at one engagement range.
   * The threat class is accepted but plays no part in the estimate.
   */
  function SuccessRate(s: SystemType, rangeKm: real, threatType: ThreatType, weather: string): (p: real)
    ensures 0.0 <= p <= 0.95
    ensures SystemSpec(s).None? ==> p == DefaultSuccessRate
  {
    match SystemSpec(s)
    case None => DefaultSuccessRate
    case Some(spec) =>
      Product(RangeAdjusted(spec, rangeKm), WeatherFactor(s, weather))
  }

  /**
   * The weather only ever scales the helicopter's estimate, by 0.3, under the
   * three adverse labels; every other class and label gets the same value as
   * under nominal weather.
   */
  lemma WeatherOnlyDegradesHelicopter(s: SystemType, rangeKm: real, t: ThreatType, weather: string)
    ensures SuccessRate(s, rangeKm, t, weather) ==
      if s == Helicopter && weather in AdverseWeather
      then 0.3 * SuccessRate(s, rangeKm, t, "Nominal")
      else SuccessRate(s, rangeKm, t, "Nominal")
  {
    assert WeatherFactor(s, "Nominal") == 1.0 by {
      assert "Nominal" !in AdverseWeather;
    }
  }

  /**
   * The range factor is discontinuous at the optimal range: exactly 0.85 there,
   * yet above 0.85 for every range up to 30% beyond it.
   */
  lemma RangeFactorJumpsAtOptimal(optimal: real, rangeKm: real)
    requires optimal > 0.0
    requires optimal < rangeKm < optimal * 1.3
    ensures RangeFactor(optimal, optimal) == 0.85
    ensures RangeFactor(optimal, rangeKm) > RangeFactor(optimal, optimal)
  {
    assert (rangeKm - optimal) / (optimal * 2.0) < 0.15 by {
      assert rangeKm - optimal < 0.15 * (optimal * 2.0);
    }
  }

  /**
   * Consequently, for a tabulated class the estimate just beyond the optimal range
   * exceeds the estimate at it: the estimate is not monotone across that boundary.
   */
  lemma SuccessRateNotMonotoneAtOptimal(s: SystemType, rangeKm: real, t: ThreatType, weather: string)
    requires SystemSpec(s).Some?
    requires SystemSpec(s).value.optimalRangeKm < rangeKm < SystemSpec(s).value.optimalRangeKm * 1.3
    ensures SuccessRate(s, SystemSpec(s).value.optimalRangeKm, t, weather) < SuccessRate(s, rangeKm, t, weather)
  {
    var spec := SystemSpec(s).value;
    RangeFactorJumpsAtOptimal(spec.optimalRangeKm, rangeKm);
    var w := WeatherFactor(s, weather);
    var lo, hi := RangeFactor(spec.optimalRangeKm, spec.optimalRangeKm), RangeFactor(spec.optimalRangeKm, rangeKm);
    assert spec.pkBase * w > 0.0;
    assert spec.pkBase * w * lo < spec.pkBase * w * hi;
    assert spec.pkBase * lo * w == spec.pkBase * w * lo;
    assert spec.pkBase * hi * w == spec.pkBase * w * hi;
  }
}
