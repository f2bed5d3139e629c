/**
 * The rule-based factor calculator: starting from 1.0, additive adjustments
 * for the hour of day, water temperature, air temperature, weather condition
 * and water level, clamped below at 0.5. Float64 values are exact reals here.
 */
module Factors {
  import opened Wrappers

  /** The two fields of the external weather record the calculator reads. */
  datatype WeatherData = WeatherData(temp: real, condition: int)

  const BaseFactor: real := 1.0
  const FactorFloor: real := 0.5
  /** 1.0 + 0.3 (morning) + 0.2 (warm air) + 0.2 (high water). */
  const FactorCeiling: real := 1.7
  /** 1.0 - 0.8 (night) - 0.2 (cold water) - 0.3 (cold air) - 0.3 (rain) - 0.3 (low water). */
  const RawFactorMinimum: real := -0.9

  /** 22:00 to 05:00 inclusive; also every hour above 23 or below 0, as `calculateFactor` does not range-check the hour. */
  predicate IsNightHour(hour: int) {
    hour >= 22 || hour <= 5
  }

  /** The time-of-day term: exactly one band applies, the bands are checked in the order morning, midday, night. */
  function TimeAdjustment(hour: int): (a: real)
    ensures a == 0.3 <==> 6 <= hour <= 8
    ensures a == 0.2 <==> 12 <= hour <= 14
    ensures a == -0.8 <==> IsNightHour(hour)
    ensures a == 0.0 <==> 9 <= hour <= 11 || 15 <= hour <= 21
  {
    if 6 <= hour <= 8 then 0.3
    else if 12 <= hour <= 14 then 0.2
    else if IsNightHour(hour) then -0.8
    else 0.0
  }

  /** Cold water (below 10 degrees) deters; an absent reading never changes the factor. */
  function WaterTempAdjustment(waterTemp: Option<real>): (a: real)
    ensures waterTemp.None? ==> a == 0.0
    ensures a == -0.2 <==> waterTemp.Some? && waterTemp.value < 10.0
    ensures a == 0.0 || a == -0.2
  {
    if waterTemp.Some? && waterTemp.value < 10.0 then -0.2 else 0.0
  }

  /** Warm air (above 20) attracts, cold air (below 5) deters; exactly 0 counts as no signal. */
  function AirTempAdjustment(temp: real): (a: real)
    ensures temp == 0.0 ==> a == 0.0
    ensures a == 0.2 <==> temp > 20.0
    ensures a == -0.3 <==> temp < 5.0 && temp != 0.0
    ensures a == 0.0 <==> temp == 0.0 || 5.0 <= temp <= 20.0
  {
    if temp != 0.0 then
      if temp > 20.0 then 0.2
      else if temp < 5.0 then -0.3
      else 0.0
    else 0.0
  }

  /** Rain-class condition codes 61 and 71 deter; every other code is neutral. */
  function ConditionAdjustment(condition: int): (a: real)
    ensures a == -0.3 <==> condition == 61 || condition == 71
    ensures a == 0.0 <==> condition != 61 && condition != 71
  {
    if condition == 61 || condition == 71 then -0.3 else 0.0
  }

  /** Low water (below 140) deters, high water (above 145) attracts, [140, 145] is neutral. */
  function WaterLevelAdjustment(level: real): (a: real)
    ensures a == -0.3 <==> level < 140.0
    ensures a == 0.2 <==> level > 145.0
    ensures a == 0.0 <==> 140.0 <= level <= 145.0
  {
    if level < 140.0 then -0.3
    else if level > 145.0 then 0.2
    else 0.0
  }

  /** The factor before the floor: the base plus the sum of the five terms. */
  function RawFactor(hour: int, waterTemp: Option<real>, weather: WeatherData, waterLevel: real): (f: real)
    ensures RawFactorMinimum <= f <= FactorCeiling
  {
    BaseFactor
      + TimeAdjustment(hour)
      + WaterTempAdjustment(waterTemp)
      + AirTempAdjustment(weather.temp)
      + ConditionAdjustment(weather.condition)
      + WaterLevelAdjustment(waterLevel)
  }

  /** The factor the calculator returns: the raw factor, raised to the floor when below it. */
  function Factor(hour: int, waterTemp: Option<real>, weather: WeatherData, waterLevel: real): (f: real)
    ensures FactorFloor <= f <= FactorCeiling
    ensures RawFactor(hour, waterTemp, weather, waterLevel) >= FactorFloor ==> f == RawFactor(hour, waterTemp, weather, waterLevel)
    ensures RawFactor(hour, waterTemp, weather, waterLevel) < FactorFloor ==> f == FactorFloor
  {
    var raw := RawFactor(hour, waterTemp, weather, waterLevel);
    if raw < FactorFloor then FactorFloor else raw
  }

  /**
   * `calculateFactor`: accumulates the adjustments into a local factor and
   * clamps it. The water flow is accepted and ignored: the result is the same
   * for every flow.
   */
  method CalculateFactor(hour: int, waterTemp: Option<real>, weather: WeatherData, waterLevel: real, waterFlow: real)
    returns (factor: real)
    ensures factor == Factor(hour, waterTemp, weather, waterLevel)
  {
    factor := 1.0;

    if 6 <= hour <= 8 {
      factor := factor + 0.3;
    } else if 12 <= hour <= 14 {
      factor := factor + 0.2;
    } else if hour >= 22 || hour <= 5 {
      factor := factor - 0.8;
    }

    if waterTemp.Some? && waterTemp.value < 10.0 {
      factor := factor - 0.2;
    }

    if weather.temp != 0.0 {
      if weather.temp > 20.0 {
        factor := factor + 0.2;
      } else if weather.temp < 5.0 {
        factor := factor - 0.3;
      }
    }

    if weather.condition == 61 || weather.condition == 71 {
      factor := factor - 0.3;
    }

    if waterLevel < 140.0 {
      factor := factor - 0.3;
    } else if waterLevel > 145.0 {
      factor := factor + 0.2;
    }

    if factor < 0.5 {
      factor := 0.5;
    }
  }

  /** Every negative adjustment at once sums to -0.9 and is clamped to exactly the floor. */
  lemma AllNegativeAdjustmentsClampToFloor(hour: int, waterTemp: real, weather: WeatherData, waterLevel: real)
    requires IsNightHour(hour) && waterTemp < 10.0 && weather.temp < 5.0 && weather.temp != 0.0
    requires (weather.condition == 61 || weather.condition == 71) && waterLevel < 140.0
    ensures RawFactor(hour, Some(waterTemp), weather, waterLevel) == RawFactorMinimum
    ensures Factor(hour, Some(waterTemp), weather, waterLevel) == FactorFloor
  {
  }

  /** The ceiling is reached: morning, warm air and high water with no deterrent. */
  lemma CeilingIsReached()
    ensures Factor(7, None, WeatherData(25.0, 0), 150.0) == FactorCeiling
  {
  }
}
