/**
 The ten pure calculation handlers of the weather calculations server, over
 exact reals.

 Each handler is split the way its output is built: a function computing the
 exact values and labels (a record of this module), and the record's
 `Rounded` member applying the handler's `round(..., digits)` to the numbers
 the tool reports. Where Python raises (`ZeroDivisionError`, or `ValueError`
 for `math.log` outside its domain) the function returns `Err`.
 */
module WeatherCalculations {
  import opened Numerics

  datatype CalcError = ZeroDivision | MathDomainError

  datatype Result<T> = Ok(value: T) | Err(error: CalcError)

  // ===================================================================
  // Threshold bands shared by the risk and comfort labels
  // ===================================================================

  /** how many of the thresholds in `bounds` the value `x` has reached */
  function Reached(bounds: seq<real>, x: real): (k: nat)
    ensures k <= |bounds|
  {
    if bounds == [] then 0
    else (if bounds[0] <= x then 1 else 0) + Reached(bounds[1..], x)
  }

  /** a larger value never reaches fewer thresholds */
  lemma {:induction false} ReachedMonotone(bounds: seq<real>, x: real, y: real)
    requires x <= y
    ensures Reached(bounds, x) <= Reached(bounds, y)
  {
    if bounds != [] {
      ReachedMonotone(bounds[1..], x, y);
    }
  }

  ghost predicate Ascending(bounds: seq<real>)
  {
    forall i, j :: 0 <= i < j < |bounds| ==> bounds[i] <= bounds[j]
  }

  /** against ascending thresholds, a value lying between the k-th and the (k+1)-th has reached k of them */
  lemma {:induction false} ReachedBetween(bounds: seq<real>, x: real, k: nat)
    requires Ascending(bounds)
    requires k <= |bounds|
    requires k == 0 || bounds[k - 1] <= x
    requires k == |bounds| || x < bounds[k]
    ensures Reached(bounds, x) == k
  {
    if bounds != [] {
      if k == 0 {
        ReachedBetween(bounds[1..], x, 0);
      } else {
        assert bounds[0] <= bounds[k - 1];
        ReachedBetween(bounds[1..], x, k - 1);
      }
    }
  }

  lemma MulNonNegative(a: real, b: real)
    requires 0.0 <= a && 0.0 <= b
    ensures 0.0 <= a * b
  {
  }

  // ===================================================================
  // Temperature conversion
  // ===================================================================

  function CelsiusToFahrenheit(celsius: real): (fahrenheit: real)
    ensures FahrenheitToCelsius(fahrenheit) == celsius
  {
    celsius * 9.0 / 5.0 + 32.0
  }

  function FahrenheitToCelsius(fahrenheit: real): (celsius: real)
    ensures celsius * 9.0 / 5.0 + 32.0 == fahrenheit
    ensures fahrenheit < 32.0 <==> celsius < 0.0
  {
    (fahrenheit - 32.0) * 5.0 / 9.0
  }

  /** the two conversions undo each other, in both orders, and keep the order of temperatures */
  lemma ConversionsAreInverse(celsius: real, fahrenheit: real)
    ensures FahrenheitToCelsius(CelsiusToFahrenheit(celsius)) == celsius
    ensures CelsiusToFahrenheit(FahrenheitToCelsius(fahrenheit)) == fahrenheit
    ensures celsius <= FahrenheitToCelsius(fahrenheit) <==> CelsiusToFahrenheit(celsius) <= fahrenheit
  {
  }

  /** the values the tool outputs for the two conversions */
  function CelsiusToFahrenheitReport(n: Numerics, celsius: real): real
  {
    n.round(CelsiusToFahrenheit(celsius), 2)
  }

  function FahrenheitToCelsiusReport(n: Numerics, fahrenheit: real): real
  {
    n.round(FahrenheitToCelsius(fahrenheit), 2)
  }

  /** the conversions of `bounds`, one by one, from Fahrenheit to Celsius */
  function BoundsInCelsius(bounds: seq<real>): (r: seq<real>)
    ensures |r| == |bounds|
    ensures forall i :: 0 <= i < |bounds| ==> r[i] == FahrenheitToCelsius(bounds[i])
  {
    if bounds == [] then [] else [FahrenheitToCelsius(bounds[0])] + BoundsInCelsius(bounds[1..])
  }

  /** a band decided on a Fahrenheit value is the same band decided on the Celsius value
      against the converted thresholds */
  lemma {:induction false} ReachedInCelsius(bounds: seq<real>, celsius: real)
    ensures Reached(bounds, CelsiusToFahrenheit(celsius)) == Reached(BoundsInCelsius(bounds), celsius)
  {
    if bounds != [] {
      ReachedInCelsius(bounds[1..], celsius);
      ConversionsAreInverse(celsius, bounds[0]);
    }
  }

  // ===================================================================
  // Heat index (Rothfusz regression, with the two NWS adjustments)
  // ===================================================================

  /** the regression itself, before any adjustment */
  function Rothfusz(t: real, rh: real): real
  {
    -42.379
    + 2.04901523 * t
    + 10.14333127 * rh
    - 0.22475541 * t * rh
    - 0.00683783 * t * t
    - 0.05481717 * rh * rh
    + 0.00122874 * t * t * rh
    + 0.00085282 * t * rh * rh
    - 0.00000199 * t * t * rh * rh
  }

  predicate LowHumidityAdjusts(t: real, rh: real)
  {
    rh < 13.0 && 80.0 <= t <= 112.0
  }

  predicate HighHumidityAdjusts(t: real, rh: real)
  {
    rh > 85.0 && 80.0 <= t <= 87.0
  }

  /** the argument of the square root in the low-humidity adjustment */
  function LowHumidityRootArgument(t: real): real
  {
    (17.0 - Abs(t - 95.0)) / 17.0
  }

  function LowHumidityAdjustment(n: Numerics, t: real, rh: real): real
  {
    ((13.0 - rh) / 4.0) * n.sqrt(LowHumidityRootArgument(t))
  }

  function HighHumidityAdjustment(t: real, rh: real): real
  {
    ((rh - 85.0) / 10.0) * ((87.0 - t) / 5.0)
  }

  function HeatIndexValue(n: Numerics, t: real, rh: real): real
  {
    if t < 80.0 then t
    else if LowHumidityAdjusts(t, rh) then Rothfusz(t, rh) - LowHumidityAdjustment(n, t, rh)
    else if HighHumidityAdjusts(t, rh) then Rothfusz(t, rh) + HighHumidityAdjustment(t, rh)
    else Rothfusz(t, rh)
  }

  const HeatRiskThresholds: seq<real> := [80.0, 90.0, 105.0, 130.0]
  const HeatRiskLevels: seq<string> := ["No risk", "Caution", "Extreme caution", "Danger", "Extreme danger"]

  function HeatRiskBand(heatIndex: real): (band: nat)
    ensures band < |HeatRiskLevels|
    ensures band == Reached(HeatRiskThresholds, heatIndex)
  {
    var band :=
      if heatIndex < 80.0 then 0
      else if heatIndex < 90.0 then 1
      else if heatIndex < 105.0 then 2
      else if heatIndex < 130.0 then 3
      else 4;
    ReachedBetween(HeatRiskThresholds, heatIndex, band);
    band
  }

  datatype HeatIndexResult = HeatIndexResult(heatIndexF: real, riskLevel: string)
  {
    function Rounded(n: Numerics): HeatIndexResult
    {
      HeatIndexResult(n.round(heatIndexF, 1), riskLevel)
    }
  }

  /** the label is always the band of the heat index reported beside it */
  function HeatIndex(n: Numerics, temperatureF: real, humidity: real): (r: HeatIndexResult)
    ensures r.riskLevel == HeatRiskLevels[Reached(HeatRiskThresholds, r.heatIndexF)]
    ensures temperatureF < 80.0 ==> r.heatIndexF == temperatureF
  {
    var hi := HeatIndexValue(n, temperatureF, humidity);
    HeatIndexResult(hi, HeatRiskLevels[HeatRiskBand(hi)])
  }

  /** below 80°F the regression is not applied: the heat index is the temperature, with no risk */
  lemma HeatIndexBelowEighty(n: Numerics, temperatureF: real, humidity: real)
    requires temperatureF < 80.0
    ensures HeatIndex(n, temperatureF, humidity) == HeatIndexResult(temperatureF, "No risk")
  {
  }

  /** at most one adjustment applies; the low-humidity guard keeps the square root's argument in [0, 1] */
  lemma HeatIndexAdjustmentsExclusive(t: real, rh: real)
    ensures !(LowHumidityAdjusts(t, rh) && HighHumidityAdjusts(t, rh))
    ensures LowHumidityAdjusts(t, rh) ==> 0.0 <= LowHumidityRootArgument(t) <= 1.0
  {
  }

  /** from 80°F up the heat index is the regression, lowered by the low-humidity adjustment,
      raised by the high-humidity one, or unchanged */
  lemma HeatIndexAdjustmentDirection(n: Numerics, t: real, rh: real)
    requires SqrtNonNegative(n)
    requires 80.0 <= t
    ensures LowHumidityAdjusts(t, rh) ==> HeatIndexValue(n, t, rh) <= Rothfusz(t, rh)
    ensures HighHumidityAdjusts(t, rh) ==> HeatIndexValue(n, t, rh) >= Rothfusz(t, rh)
    ensures !LowHumidityAdjusts(t, rh) && !HighHumidityAdjusts(t, rh) ==> HeatIndexValue(n, t, rh) == Rothfusz(t, rh)
  {
    if LowHumidityAdjusts(t, rh) {
      MulNonNegative((13.0 - rh) / 4.0, n.sqrt(LowHumidityRootArgument(t)));
    } else if HighHumidityAdjusts(t, rh) {
      MulNonNegative((rh - 85.0) / 10.0, (87.0 - t) / 5.0);
    }
  }

  /** a hotter heat index never carries a milder risk label */
  lemma HeatRiskMonotone(a: real, b: real)
    requires a <= b
    ensures HeatRiskBand(a) <= HeatRiskBand(b)
  {
    ReachedMonotone(HeatRiskThresholds, a, b);
  }

  // ===================================================================
  // Wind chill (NWS formula)
  // ===================================================================

  predicate WindChillApplies(t: real, v: real)
  {
    !(t > 50.0 || v < 3.0)
  }

  function NwsWindChill(n: Numerics, t: real, v: real): real
  {
    35.74 + 0.6215 * t - 35.75 * n.pow(v, 0.16) + 0.4275 * t * n.pow(v, 0.16)
  }

  /** the thresholds 16, -15, -35 of the risk bands, negated so that a colder wind chill reaches more of them */
  const WindChillRiskThresholds: seq<real> := [-16.0, 15.0, 35.0]
  const WindChillRiskLevels: seq<string> := ["No risk", "Uncomfortable", "Risk of frostbite", "Extreme risk"]

  function WindChillSeverity(windChill: real): (severity: nat)
    ensures severity < |WindChillRiskLevels|
    ensures severity == Reached(WindChillRiskThresholds, -windChill)
  {
    var severity :=
      if windChill > 16.0 then 0
      else if windChill > -15.0 then 1
      else if windChill > -35.0 then 2
      else 3;
    ReachedBetween(WindChillRiskThresholds, -windChill, severity);
    severity
  }

  datatype WindChillResult = WindChillResult(windChillF: real, applicable: bool, riskLevel: string)
  {
    function Rounded(n: Numerics): WindChillResult
    {
      WindChillResult(n.round(windChillF, 1), applicable, riskLevel)
    }
  }

  /** an applicable result is labelled with the band of the wind chill reported beside it */
  function WindChill(n: Numerics, temperatureF: real, windSpeedMph: real): (r: WindChillResult)
    ensures r.applicable ==> r.riskLevel == WindChillRiskLevels[Reached(WindChillRiskThresholds, -r.windChillF)]
    ensures r.applicable ==> r.windChillF == NwsWindChill(n, temperatureF, windSpeedMph)
  {
    if temperatureF > 50.0 || windSpeedMph < 3.0 then
      WindChillResult(temperatureF, false, "Not applicable")
    else
      var wc := NwsWindChill(n, temperatureF, windSpeedMph);
      WindChillResult(wc, true, WindChillRiskLevels[WindChillSeverity(wc)])
  }

  /** the formula applies exactly when T <= 50°F and V >= 3 mph; otherwise the result is the
      temperature, labelled "Not applicable", and an applicable result always has a risk band */
  lemma WindChillApplicability(n: Numerics, temperatureF: real, windSpeedMph: real)
    ensures var r := WindChill(n, temperatureF, windSpeedMph);
      && (r.applicable <==> WindChillApplies(temperatureF, windSpeedMph))
      && (!r.applicable ==> r.windChillF == temperatureF && r.riskLevel == "Not applicable")
      && (r.applicable ==> r.riskLevel in WindChillRiskLevels && r.riskLevel != "Not applicable")
  {
  }

  /** where it applies, the wind chill is colder than the air */
  lemma WindChillBelowAirTemperature(n: Numerics, temperatureF: real, windSpeedMph: real)
    requires WindPowerBound(n)
    requires WindChillApplies(temperatureF, windSpeedMph)
    ensures WindChill(n, temperatureF, windSpeedMph).windChillF < temperatureF
  {
    var t, p := temperatureF, n.pow(windSpeedMph, 0.16);
    var c := 35.75 - 0.4275 * t;
    assert 1.19 <= p;
    assert 0.0 < c;
    assert p * c >= 1.19 * c;
    assert NwsWindChill(n, t, windSpeedMph) - t == 35.74 - 0.3785 * t - p * c;
  }

  /** a colder wind chill never carries a milder risk label */
  lemma WindChillRiskMonotone(a: real, b: real)
    requires a <= b
    ensures WindChillSeverity(b) <= WindChillSeverity(a)
  {
    ReachedMonotone(WindChillRiskThresholds, -b, -a);
  }

  // ===================================================================
  // Dew point (Magnus formula)
  // ===================================================================

  const MagnusA: real := 17.27
  const MagnusB: real := 237.7

  const DewComfortThresholdsF: seq<real> := [50.0, 55.0, 60.0, 65.0, 70.0]
  const DewComfortLevels: seq<string> := ["Very dry", "Comfortable", "Slightly humid", "Humid", "Very humid", "Oppressive"]

  function DewComfortBand(dewPointF: real): (band: nat)
    ensures band < |DewComfortLevels|
    ensures band == Reached(DewComfortThresholdsF, dewPointF)
  {
    var band :=
      if dewPointF < 50.0 then 0
      else if dewPointF < 55.0 then 1
      else if dewPointF < 60.0 then 2
      else if dewPointF < 65.0 then 3
      else if dewPointF < 70.0 then 4
      else 5;
    ReachedBetween(DewComfortThresholdsF, dewPointF, band);
    band
  }

  datatype DewPointResult = DewPointResult(dewPointC: real, dewPointF: real, comfortLevel: string)
  {
    function Rounded(n: Numerics): DewPointResult
    {
      DewPointResult(n.round(dewPointC, 2), n.round(dewPointF, 2), comfortLevel)
    }
  }

  /** the Magnus `alpha` term; `requires` the division Python performs first to be defined */
  function MagnusAlpha(n: Numerics, t: real, rh: real): real
    requires MagnusB + t != 0.0
  {
    MagnusA * t / (MagnusB + t) + n.log(rh / 100.0)
  }

  /** a successful result reports the dew point in both scales, labelled by its band in Fahrenheit */
  function DewPoint(n: Numerics, temperatureC: real, humidity: real): (r: Result<DewPointResult>)
    ensures r.Ok? ==> 0.0 < humidity && MagnusB + temperatureC != 0.0
    ensures r.Ok? ==> r.value.dewPointF == CelsiusToFahrenheit(r.value.dewPointC)
    ensures r.Ok? ==> r.value.comfortLevel == DewComfortLevels[Reached(DewComfortThresholdsF, r.value.dewPointF)]
  {
    if MagnusB + temperatureC == 0.0 then Err(ZeroDivision)
    else if humidity / 100.0 <= 0.0 then Err(MathDomainError)
    else
      var alpha := MagnusAlpha(n, temperatureC, humidity);
      if MagnusA - alpha == 0.0 then Err(ZeroDivision)
      else
        var dp := MagnusB * alpha / (MagnusA - alpha);
        var dpF := CelsiusToFahrenheit(dp);
        Ok(DewPointResult(dp, dpF, DewComfortLevels[DewComfortBand(dpF)]))
  }

  /** the three ways the calculation fails, in the order Python meets them */
  lemma DewPointErrors(n: Numerics, temperatureC: real, humidity: real)
    ensures DewPoint(n, temperatureC, humidity) == Err(ZeroDivision) <==>
      MagnusB + temperatureC == 0.0
      || (0.0 < humidity && MagnusAlpha(n, temperatureC, humidity) == MagnusA)
    ensures DewPoint(n, temperatureC, humidity) == Err(MathDomainError) <==>
      MagnusB + temperatureC != 0.0 && humidity <= 0.0
  {
  }

  /** saturated air (100 % humidity) has its dew point at the air temperature */
  lemma DewPointAtSaturation(n: Numerics, temperatureC: real)
    requires n.log(1.0) == 0.0
    requires MagnusB + temperatureC != 0.0
    ensures DewPoint(n, temperatureC, 100.0).Ok?
    ensures DewPoint(n, temperatureC, 100.0).value.dewPointC == temperatureC
  {
    var t := temperatureC;
    var s := MagnusB + t;
    var alpha := MagnusAlpha(n, t, 100.0);
    assert alpha == MagnusA * t / s;
    assert MagnusA - alpha == MagnusA * MagnusB / s by {
      assert MagnusA * t / s + MagnusA * MagnusB / s == MagnusA * (t + MagnusB) / s;
    }
    assert MagnusB * alpha == MagnusA * MagnusB * t / s;
    assert MagnusB * alpha / (MagnusA - alpha) == t by {
      assert MagnusB * alpha == t * (MagnusA - alpha);
    }
  }

  /** above -237.7°C, air at most saturated never has its dew point above the air temperature */
  lemma DewPointNotAboveTemperature(n: Numerics, temperatureC: real, humidity: real)
    requires LogAtMostZeroBelowOne(n)
    requires 0.0 < humidity <= 100.0
    requires 0.0 < MagnusB + temperatureC
    ensures DewPoint(n, temperatureC, humidity).Ok?
    ensures DewPoint(n, temperatureC, humidity).value.dewPointC <= temperatureC
  {
    var t := temperatureC;
    var s := MagnusB + t;
    var top := MagnusA * t / s;
    var alpha := MagnusAlpha(n, t, humidity);
    assert n.log(humidity / 100.0) <= 0.0;
    assert alpha <= top;
    assert top == MagnusA - MagnusA * MagnusB / s by {
      assert MagnusA * t / s + MagnusA * MagnusB / s == MagnusA * (t + MagnusB) / s;
    }
    assert 0.0 < MagnusA * MagnusB / s;
    var d := MagnusA - alpha;
    assert 0.0 < d;
    // b * alpha <= t * (a - alpha)  <==>  alpha * s <= a * t
    assert alpha * s <= top * s;
    assert top * s == MagnusA * t;
    assert MagnusB * alpha <= t * d;
    assert MagnusB * alpha / d <= t * d / d;
  }

  /** the comfort label, decided on the dew point in Fahrenheit, is the band of the dew point in
      Celsius against 10, 115/9, 140/9, 165/9 and 190/9 °C; a higher dew point is never more comfortable */
  lemma DewComfortInCelsius(dewPointC: real, other: real)
    ensures DewComfortBand(CelsiusToFahrenheit(dewPointC))
      == Reached([10.0, 115.0 / 9.0, 140.0 / 9.0, 165.0 / 9.0, 190.0 / 9.0], dewPointC)
    ensures dewPointC <= other ==>
      DewComfortBand(CelsiusToFahrenheit(dewPointC)) <= DewComfortBand(CelsiusToFahrenheit(other))
  {
    ReachedInCelsius(DewComfortThresholdsF, dewPointC);
    assert BoundsInCelsius(DewComfortThresholdsF) == [10.0, 115.0 / 9.0, 140.0 / 9.0, 165.0 / 9.0, 190.0 / 9.0];
    if dewPointC <= other {
      ReachedMonotone(DewComfortThresholdsF, CelsiusToFahrenheit(dewPointC), CelsiusToFahrenheit(other));
    }
  }

  // ===================================================================
  // Sea-level pressure (barometric formula)
  // ===================================================================

  const StandardGravity: real := 9.80665
  const AirMolarMass: real := 0.0289644
  const GasConstant: real := 8.31432

  datatype SeaLevelPressure = SeaLevelPressure(seaLevelPressureHpa: real, pressureDifferenceHpa: real)
  {
    function Rounded(n: Numerics): SeaLevelPressure
    {
      SeaLevelPressure(n.round(seaLevelPressureHpa, 2), n.round(pressureDifferenceHpa, 2))
    }
  }

  /** fails only at absolute zero; the difference reported is the sea-level pressure less the reading */
  function PressureAltitudeToSeaLevel(n: Numerics, pressureHpa: real, altitudeM: real, temperatureC: real)
    : (r: Result<SeaLevelPressure>)
    ensures r.Err? <==> temperatureC == -273.15
    ensures r.Ok? ==> r.value.seaLevelPressureHpa == pressureHpa + r.value.pressureDifferenceHpa
  {
    var kelvin := temperatureC + 273.15;
    if GasConstant * kelvin == 0.0 then Err(ZeroDivision)
    else
      var slp := pressureHpa * n.exp((StandardGravity * AirMolarMass * altitudeM) / (GasConstant * kelvin));
      Ok(SeaLevelPressure(slp, slp - pressureHpa))
  }

  /** the reduction fails only at absolute zero; at sea level it changes nothing; above sea level
      (at a temperature above absolute zero) it never lowers a non-negative reading, below sea level
      it never raises one */
  lemma SeaLevelPressureDirection(n: Numerics, pressureHpa: real, altitudeM: real, temperatureC: real)
    requires ExpAroundZero(n)
    ensures var r := PressureAltitudeToSeaLevel(n, pressureHpa, altitudeM, temperatureC);
      && (r.Err? <==> temperatureC == -273.15)
      && (r.Ok? && altitudeM == 0.0 ==>
          r.value.seaLevelPressureHpa == pressureHpa && r.value.pressureDifferenceHpa == 0.0)
      && (r.Ok? && 0.0 <= pressureHpa && -273.15 < temperatureC && 0.0 <= altitudeM ==>
          pressureHpa <= r.value.seaLevelPressureHpa && 0.0 <= r.value.pressureDifferenceHpa)
      && (r.Ok? && 0.0 <= pressureHpa && -273.15 < temperatureC && altitudeM <= 0.0 ==>
          r.value.seaLevelPressureHpa <= pressureHpa && r.value.pressureDifferenceHpa <= 0.0)
  {
    var kelvin := temperatureC + 273.15;
    if GasConstant * kelvin != 0.0 {
      var x := (StandardGravity * AirMolarMass * altitudeM) / (GasConstant * kelvin);
      var e := n.exp(x);
      if 0.0 < kelvin {
        assert 0.0 <= altitudeM ==> 0.0 <= x;
        assert altitudeM <= 0.0 ==> x <= 0.0;
        if 0.0 <= pressureHpa {
          assert 1.0 <= e ==> pressureHpa * 1.0 <= pressureHpa * e;
          assert e <= 1.0 ==> pressureHpa * e <= pressureHpa * 1.0;
        }
      }
      assert altitudeM == 0.0 ==> x == 0.0;
    }
  }

  // ===================================================================
  // Feels like: heat index, wind chill or apparent temperature
  // ===================================================================

  datatype FeelsLikeMethod = HeatIndexMethod | WindChillMethod | ApparentTemperatureMethod
  {
    function Name(): string
    {
      match this
      case HeatIndexMethod => "Heat Index"
      case WindChillMethod => "Wind Chill"
      case ApparentTemperatureMethod => "Apparent Temperature"
    }
  }

  datatype FeelsLikeResult = FeelsLikeResult(feelsLikeC: real, feelsLikeF: real, methodUsed: FeelsLikeMethod)
  {
    function Rounded(n: Numerics): FeelsLikeResult
    {
      FeelsLikeResult(n.round(feelsLikeC, 1), n.round(feelsLikeF, 1), methodUsed)
    }
  }

  const MphPerKmh: real := 0.621371

  /** the simple apparent-temperature formula, applied to the Fahrenheit temperature as written */
  function ApparentTemperature(n: Numerics, temperatureC: real, humidity: real, windSpeedKmh: real): real
    requires 237.7 + temperatureC != 0.0
  {
    CelsiusToFahrenheit(temperatureC)
    + (0.33 * (humidity / 100.0) * 6.105 * n.exp(17.27 * temperatureC / (237.7 + temperatureC)))
    - 0.7 * (windSpeedKmh / 3.6)
    - 4.0
  }

  function FeelsLikeOf(methodUsed: FeelsLikeMethod, feelsLikeF: real): FeelsLikeResult
  {
    FeelsLikeResult(FahrenheitToCelsius(feelsLikeF), feelsLikeF, methodUsed)
  }

  /** the nested heat index and wind chill are read back from their own (rounded) tool output */
  function FeelsLike(n: Numerics, temperatureC: real, humidity: real, windSpeedKmh: real): (r: Result<FeelsLikeResult>)
    ensures r.Err? ==> temperatureC == -237.7
    ensures r.Ok? ==> CelsiusToFahrenheit(r.value.feelsLikeC) == r.value.feelsLikeF
  {
    var tF := CelsiusToFahrenheit(temperatureC);
    if tF >= 80.0 then
      Ok(FeelsLikeOf(HeatIndexMethod, HeatIndex(n, tF, humidity).Rounded(n).heatIndexF))
    else if tF <= 50.0 && windSpeedKmh >= 4.8 then
      Ok(FeelsLikeOf(WindChillMethod, WindChill(n, tF, windSpeedKmh * MphPerKmh).Rounded(n).windChillF))
    else if 237.7 + temperatureC == 0.0 then
      Err(ZeroDivision)
    else
      Ok(FeelsLikeOf(ApparentTemperatureMethod, ApparentTemperature(n, temperatureC, humidity, windSpeedKmh)))
  }

  /** exactly one method is chosen: heat index from 80/3 °C (80°F) up, wind chill at 10°C (50°F) or
      below with wind of at least 4.8 km/h, the apparent temperature otherwise (which fails only at
      -237.7°C); the Celsius output is the conversion of the Fahrenheit output */
  lemma FeelsLikeMethodChoice(n: Numerics, temperatureC: real, humidity: real, windSpeedKmh: real)
    ensures var r := FeelsLike(n, temperatureC, humidity, windSpeedKmh);
      && (r.Err? <==> temperatureC == -237.7 && windSpeedKmh < 4.8)
      && (r.Ok? ==> r.value.feelsLikeC == FahrenheitToCelsius(r.value.feelsLikeF))
      && (r.Ok? ==> (r.value.methodUsed == HeatIndexMethod <==> 80.0 / 3.0 <= temperatureC))
      && (r.Ok? ==> (r.value.methodUsed == WindChillMethod <==> temperatureC <= 10.0 && 4.8 <= windSpeedKmh))
      && (r.Ok? ==> (r.value.methodUsed == ApparentTemperatureMethod <==>
                      10.0 < temperatureC < 80.0 / 3.0 || (temperatureC < 80.0 / 3.0 && windSpeedKmh < 4.8)))
  {
    var tF := CelsiusToFahrenheit(temperatureC);
    assert tF >= 80.0 <==> 80.0 / 3.0 <= temperatureC;
    assert tF <= 50.0 <==> temperatureC <= 10.0;
  }

  /** from 4.8 km/h up to 3 mph (3 / 0.621371 km/h) the wind-chill method is chosen but the nested
      wind chill does not apply, so the Fahrenheit output is the (rounded) air temperature */
  lemma FeelsLikeWindChillGap(n: Numerics, temperatureC: real, humidity: real, windSpeedKmh: real)
    requires temperatureC <= 10.0
    requires 4.8 <= windSpeedKmh < 3.0 / MphPerKmh
    ensures FeelsLike(n, temperatureC, humidity, windSpeedKmh)
      == Ok(FeelsLikeOf(WindChillMethod, n.round(CelsiusToFahrenheit(temperatureC), 1)))
  {
    assert windSpeedKmh * MphPerKmh < 3.0;
  }

  // ===================================================================
  // Sunrise and sunset
  // ===================================================================

  /** a wall-clock time as the tool prints it, `HH:MM` */
  datatype ClockTime = ClockTime(hours: int, minutes: int)

  /** the three outcomes: times of sunrise and sunset, or a polar day or night */
  datatype Daylight<T> = Normal(sunrise: T, sunset: T) | PolarDay | PolarNight
  {
    function Condition(): string
    {
      match this
      case Normal(_, _) => "normal"
      case PolarDay => "polar_day"
      case PolarNight => "polar_night"
    }

    /** the text printed in place of both times when there is no sunrise or no sunset */
    function PolarText(): string
      requires !Normal?
    {
      if PolarDay? then "No sunset (polar day)" else "No sunrise (polar night)"
    }
  }

  function SolarDeclination(n: Numerics, dayOfYear: int): real
  {
    n.asin(0.39795 * n.cos(0.98563 * (dayOfYear - 173) as real * Pi / 180.0))
  }

  /** the cosine of the sunset hour angle, `-tan(latitude) * tan(declination)` */
  function HourAngleArgument(n: Numerics, latitude: real, dayOfYear: int): real
  {
    -n.tan(Radians(latitude)) * n.tan(SolarDeclination(n, dayOfYear))
  }

  /** half the length of the day, in hours */
  function HourAngle(n: Numerics, argument: real): real
  {
    24.0 * n.acos(argument) / (2.0 * Pi)
  }

  /** sunrise and sunset, in decimal hours UTC, lie symmetrically about solar noon 12 - longitude / 15 */
  function SunEvents(n: Numerics, latitude: real, longitude: real, dayOfYear: int): (e: Daylight<real>)
    ensures e.Normal? <==> -1.0 <= HourAngleArgument(n, latitude, dayOfYear) <= 1.0
    ensures e.Normal? ==> (e.sunrise + e.sunset) / 2.0 == 12.0 - longitude / 15.0
  {
    var argument := HourAngleArgument(n, latitude, dayOfYear);
    if argument < -1.0 then PolarDay
    else if argument > 1.0 then PolarNight
    else
      var hourAngle := HourAngle(n, argument);
      Normal(12.0 - hourAngle - longitude / 15.0, 12.0 + hourAngle - longitude / 15.0)
  }

  /** `decimal_to_time` as written: `int()` truncates toward zero, `% 24` is floored */
  function DecimalToTimeAsWritten(decimalHour: real): (t: ClockTime)
    ensures 0 <= t.hours < 24
    ensures -60 < t.minutes < 60
    ensures 0.0 <= decimalHour ==> 0 <= t.minutes
    ensures decimalHour <= 0.0 ==> t.minutes <= 0
    ensures t.minutes == Trunc(decimalHour * 60.0) - 60 * Trunc(decimalHour)
  {
    var whole := Trunc(decimalHour);
    TruncatedMinutes(decimalHour);
    ClockTime(whole % 24, Trunc((decimalHour - whole as real) * 60.0))
  }

  /** the minutes left after truncating the hour are the truncated total minutes less 60 per whole hour */
  lemma TruncatedMinutes(x: real)
    ensures Trunc((x - Trunc(x) as real) * 60.0) == Trunc(x * 60.0) - 60 * Trunc(x)
  {
    var whole := Trunc(x);
    if 0.0 <= x {
      FloorShift(x * 60.0 - (60 * whole) as real, 60 * whole);
    } else {
      FloorShift(-x * 60.0 + (60 * whole) as real, -60 * whole);
    }
  }

  /** whenever the written conversion gives a negative decimal hour a non-zero number of minutes,
      it differs from the time of day: truncation is wrong for every such input, not for one */
  lemma DecimalToTimeDiffersBelowZero(decimalHour: real)
    requires decimalHour < 0.0
    requires DecimalToTimeAsWritten(decimalHour).minutes != 0
    ensures DecimalToTimeAsWritten(decimalHour).minutes < 0
    ensures DecimalToTimeAsWritten(decimalHour) != DecimalToTime(decimalHour)
  {
  }

  /** `decimal_to_time` with floor in place of truncation: the time of day the decimal hour falls
      on, counted modulo one day, to the minute */
  function DecimalToTime(decimalHour: real): (t: ClockTime)
    ensures 0 <= t.hours < 24 && 0 <= t.minutes < 60
    ensures t.hours * 60 + t.minutes == (decimalHour * 60.0).Floor % 1440
  {
    var whole := decimalHour.Floor;
    var fraction := decimalHour - whole as real;
    var minutes := (fraction * 60.0).Floor;
    assert 0 <= minutes < 60;
    assert (decimalHour * 60.0).Floor == 60 * whole + minutes by {
      assert decimalHour * 60.0 == (60 * whole) as real + fraction * 60.0;
      FloorShift(fraction * 60.0, 60 * whole);
    }
    ModOfDayMinutes(whole, minutes);
    ClockTime(whole % 24, minutes)
  }

  lemma FloorShift(x: real, k: int)
    ensures (k as real + x).Floor == k + x.Floor
  {
  }

  lemma ModOfDayMinutes(whole: int, minutes: int)
    requires 0 <= minutes < 60
    ensures (60 * whole + minutes) % 1440 == 60 * (whole % 24) + minutes
  {
    var q := whole / 24;
    var h := whole % 24;
    assert whole == 24 * q + h;
    assert 60 * whole + minutes == 1440 * q + (60 * h + minutes);
    assert 0 <= 60 * h + minutes < 1440;
  }

  /** for a non-negative decimal hour the written conversion and the floored one agree */
  lemma DecimalToTimeAgrees(decimalHour: real)
    requires 0.0 <= decimalHour
    ensures DecimalToTimeAsWritten(decimalHour) == DecimalToTime(decimalHour)
  {
  }

  /** the outcome of `SunEvents`, with both times as valid clock readings */
  function SunriseSunset(n: Numerics, latitude: real, longitude: real, dayOfYear: int): (r: Daylight<ClockTime>)
    ensures r.Condition() == SunEvents(n, latitude, longitude, dayOfYear).Condition()
    ensures r.Normal? ==>
      && 0 <= r.sunrise.hours < 24 && 0 <= r.sunrise.minutes < 60
      && 0 <= r.sunset.hours < 24 && 0 <= r.sunset.minutes < 60
  {
    match SunEvents(n, latitude, longitude, dayOfYear)
    case Normal(sunrise, sunset) => Normal(DecimalToTime(sunrise), DecimalToTime(sunset))
    case PolarDay => PolarDay
    case PolarNight => PolarNight
  }

  /** the condition is decided by the hour-angle argument alone, in three disjoint ranges */
  lemma SunConditionBands(n: Numerics, latitude: real, longitude: real, dayOfYear: int)
    ensures var argument := HourAngleArgument(n, latitude, dayOfYear);
      var r := SunriseSunset(n, latitude, longitude, dayOfYear);
      && (r.PolarDay? <==> argument < -1.0)
      && (r.PolarNight? <==> 1.0 < argument)
      && (r.Normal? <==> -1.0 <= argument <= 1.0)
      && r.Condition() == SunEvents(n, latitude, longitude, dayOfYear).Condition()
  {
  }

  /** on a normal day the half-day length is between 0 and 12 hours, sunrise comes no later than
      sunset, and solar noon (their mean) is 12 - longitude / 15 */
  lemma NormalDayShape(n: Numerics, latitude: real, longitude: real, dayOfYear: int)
    requires AcosInRange(n)
    requires SunEvents(n, latitude, longitude, dayOfYear).Normal?
    ensures var argument := HourAngleArgument(n, latitude, dayOfYear);
      0.0 <= HourAngle(n, argument) <= 12.0
    ensures var e := SunEvents(n, latitude, longitude, dayOfYear);
      && e.sunrise <= e.sunset <= e.sunrise + 24.0
      && (e.sunrise + e.sunset) / 2.0 == 12.0 - longitude / 15.0
  {
    var argument := HourAngleArgument(n, latitude, dayOfYear);
    var a := n.acos(argument);
    assert 0.0 <= a <= Pi;
    assert HourAngle(n, argument) == 12.0 * (a / Pi);
    assert 0.0 <= a / Pi <= 1.0;
  }

  /** at the ends of the domain of `acos` the half-day is the whole day (argument -1, the edge of
      polar day) or nothing (argument 1, the edge of polar night) */
  lemma HourAngleAtEdges(n: Numerics)
    requires n.acos(-1.0) == Pi && n.acos(1.0) == 0.0
    ensures HourAngle(n, -1.0) == 12.0
    ensures HourAngle(n, 1.0) == 0.0
  {
  }

  /** at the equator (where tan(0) = 0 makes every day 12 hours long) and longitude 95°E the sunrise
      falls at -1/3 h UTC: over exact reals the written conversion gives 00:-20 (in double precision
      the product with 60 falls just short of -20 and it gives 00:-19), the floored one 23:40 */
  lemma NegativeSunriseAsWritten(n: Numerics, dayOfYear: int)
    requires n.tan(0.0) == 0.0 && n.acos(0.0) == Pi / 2.0
    ensures SunEvents(n, 0.0, 95.0, dayOfYear) == Normal(-1.0 / 3.0, 35.0 / 3.0)
    ensures DecimalToTimeAsWritten(-1.0 / 3.0) == ClockTime(0, -20)
    ensures SunriseSunset(n, 0.0, 95.0, dayOfYear).sunrise == ClockTime(23, 40)
  {
    assert Radians(0.0) == 0.0;
    assert HourAngleArgument(n, 0.0, dayOfYear) == 0.0;
    assert HourAngle(n, 0.0) == 6.0;
    assert (-1.0 / 3.0).Floor == -1;
    assert (-1.0 / 3.0 - (-1) as real) * 60.0 == 40.0;
    assert Trunc(-1.0 / 3.0) == 0;
    assert (-1.0 / 3.0 - 0 as real) * 60.0 == -20.0;
  }

  // ===================================================================
  // UV index from solar elevation
  // ===================================================================

  const DefaultOzoneThickness: real := 300.0
  const DefaultCloudCover: real := 0.0

  const UvThresholds: seq<real> := [3.0, 6.0, 8.0, 11.0]
  const UvRiskLevels: seq<string> := ["Low", "Moderate", "High", "Very High", "Extreme"]
  const UvProtection: seq<string> := [
    "Minimal protection required",
    "Seek shade during midday hours",
    "Protection essential",
    "Extra protection required",
    "Avoid outdoor activities"
  ]

  function UvBand(uvIndex: real): (band: nat)
    ensures band < |UvRiskLevels| && band < |UvProtection|
    ensures band == Reached(UvThresholds, uvIndex)
  {
    var band :=
      if uvIndex < 3.0 then 0
      else if uvIndex < 6.0 then 1
      else if uvIndex < 8.0 then 2
      else if uvIndex < 11.0 then 3
      else 4;
    ReachedBetween(UvThresholds, uvIndex, band);
    band
  }

  /** the attenuation by ozone, treating less than 100 Dobson units as 100 */
  function OzoneFactor(ozoneThickness: real): real
  {
    300.0 / Max(ozoneThickness, 100.0)
  }

  function CloudFactor(cloudCover: real): real
  {
    1.0 - (cloudCover / 100.0) * 0.8
  }

  function UvIndexValue(n: Numerics, elevation: real, ozoneThickness: real, cloudCover: real): (uv: real)
    ensures 0.0 <= uv <= 11.0
    ensures elevation <= 0.0 ==> uv == 0.0
  {
    if elevation <= 0.0 then 0.0
    else Max(0.0, Min(11.0, AttenuatedUv(n, elevation, ozoneThickness, cloudCover)))
  }

  /** the UV index of a sun above the horizon, before clamping */
  function AttenuatedUv(n: Numerics, elevation: real, ozoneThickness: real, cloudCover: real): real
  {
    var baseUv := 11.0 * n.sin(Radians(elevation));
    baseUv * OzoneFactor(ozoneThickness) * CloudFactor(cloudCover)
  }

  datatype UvIndexResult = UvIndexResult(uvIndex: real, riskLevel: string, protectionAdvice: string)
  {
    function Rounded(n: Numerics): UvIndexResult
    {
      UvIndexResult(n.round(uvIndex, 1), riskLevel, protectionAdvice)
    }
  }

  /** the index is within [0, 11], and the label and the advice are both those of its band */
  function UvIndexFromSolarElevation(n: Numerics, elevation: real, ozoneThickness: real, cloudCover: real)
    : (r: UvIndexResult)
    ensures 0.0 <= r.uvIndex <= 11.0
    ensures r.riskLevel == UvRiskLevels[Reached(UvThresholds, r.uvIndex)]
    ensures r.protectionAdvice == UvProtection[Reached(UvThresholds, r.uvIndex)]
  {
    var uv := UvIndexValue(n, elevation, ozoneThickness, cloudCover);
    var band := UvBand(uv);
    UvIndexResult(uv, UvRiskLevels[band], UvProtection[band])
  }

  /** the tool called with only the elevation: the defaults attenuate nothing, so above the
      horizon the index is `11 * sin(elevation)`, clamped */
  function UvIndexWithDefaults(n: Numerics, elevation: real): (r: UvIndexResult)
    ensures 0.0 < elevation ==> r.uvIndex == Max(0.0, Min(11.0, 11.0 * n.sin(Radians(elevation))))
  {
    UvIndexFromSolarElevation(n, elevation, DefaultOzoneThickness, DefaultCloudCover)
  }

  /** with the sun at or below the horizon the index is 0 ("Low") whatever the ozone and cloud;
      "Extreme" is reported exactly when the clamped index is at its cap of 11 */
  lemma UvIndexBounds(n: Numerics, elevation: real, ozoneThickness: real, cloudCover: real)
    ensures var r := UvIndexFromSolarElevation(n, elevation, ozoneThickness, cloudCover);
      && (elevation <= 0.0 ==> r == UvIndexResult(0.0, "Low", "Minimal protection required"))
      && (r.riskLevel == "Extreme" <==> r.uvIndex == 11.0)
  {
  }

  /** ozone thinner than 100 Dobson units counts as 100 */
  lemma UvOzoneFloor(n: Numerics, elevation: real, ozoneThickness: real, cloudCover: real)
    requires ozoneThickness < 100.0
    ensures UvIndexFromSolarElevation(n, elevation, ozoneThickness, cloudCover)
         == UvIndexFromSolarElevation(n, elevation, 100.0, cloudCover)
  {
  }

  /** for the sun between the horizon and the opposite horizon and cloud cover in [0, 100] %,
      thicker ozone or more cloud never raises the UV index */
  lemma UvAttenuationMonotone(n: Numerics, elevation: real, ozone1: real, ozone2: real, cloud1: real, cloud2: real)
    requires SinNonNegative(n)
    requires elevation <= 180.0
    requires ozone1 <= ozone2
    requires 0.0 <= cloud1 <= cloud2 <= 100.0
    ensures UvIndexValue(n, elevation, ozone2, cloud2) <= UvIndexValue(n, elevation, ozone1, cloud1)
  {
    if 0.0 < elevation {
      AttenuatedUvMonotone(n, elevation, ozone1, ozone2, cloud1, cloud2);
      ClampMonotone(AttenuatedUv(n, elevation, ozone2, cloud2), AttenuatedUv(n, elevation, ozone1, cloud1));
    }
  }

  lemma AttenuatedUvMonotone(n: Numerics, elevation: real, ozone1: real, ozone2: real, cloud1: real, cloud2: real)
    requires SinNonNegative(n)
    requires 0.0 < elevation <= 180.0
    requires ozone1 <= ozone2
    requires 0.0 <= cloud1 <= cloud2 <= 100.0
    ensures AttenuatedUv(n, elevation, ozone2, cloud2) <= AttenuatedUv(n, elevation, ozone1, cloud1)
  {
    BaseUvNonNegative(n, elevation);
    OzoneFactorMonotone(ozone1, ozone2);
    ProductMonotone(11.0 * n.sin(Radians(elevation)),
      OzoneFactor(ozone1), OzoneFactor(ozone2), CloudFactor(cloud1), CloudFactor(cloud2));
  }

  lemma BaseUvNonNegative(n: Numerics, elevation: real)
    requires SinNonNegative(n)
    requires 0.0 <= elevation <= 180.0
    ensures 0.0 <= 11.0 * n.sin(Radians(elevation))
  {
    assert 0.0 <= Radians(elevation) <= Pi;
  }

  lemma OzoneFactorMonotone(ozone1: real, ozone2: real)
    requires ozone1 <= ozone2
    ensures 0.0 < OzoneFactor(ozone2) <= OzoneFactor(ozone1)
  {
    var m1, m2 := Max(ozone1, 100.0), Max(ozone2, 100.0);
    assert 100.0 <= m1 <= m2;
    assert 300.0 / m2 <= 300.0 / m1 by {
      assert 300.0 / m2 * m1 <= 300.0 / m2 * m2;
    }
  }

  lemma ProductMonotone(b: real, o1: real, o2: real, c1: real, c2: real)
    requires 0.0 <= b && 0.0 < o2 <= o1 && 0.0 < c2 <= c1
    ensures b * o2 * c2 <= b * o1 * c1
  {
    assert b * o2 <= b * o1;
    MulNonNegative(b, o2);
    assert b * o2 * c2 <= b * o2 * c1;
    assert b * o2 * c1 <= b * o1 * c1;
  }

  lemma ClampMonotone(x: real, y: real)
    requires x <= y
    ensures Max(0.0, Min(11.0, x)) <= Max(0.0, Min(11.0, y))
  {
  }

  // ===================================================================
  // Saturation vapour pressure (Tetens formula)
  // ===================================================================

  datatype Phase = Water | Ice
  {
    function Name(): string
    {
      match this
      case Water => "water"
      case Ice => "ice"
    }
  }

  datatype VapourPressure = VapourPressure(hPa: real, pa: real, mmHg: real, phase: Phase)
  {
    function Rounded(n: Numerics): VapourPressure
    {
      VapourPressure(n.round(hPa, 3), n.round(pa, 1), n.round(mmHg, 3), phase)
    }
  }

  /** one pressure in hectopascals, with its conversions to pascals and millimetres of mercury */
  function InAllUnits(es: real, phase: Phase): VapourPressure
  {
    VapourPressure(es, es * 100.0, es * 0.750062, phase)
  }

  function SaturationVapourPressure(n: Numerics, temperatureC: real): (r: Result<VapourPressure>)
    ensures r.Err? <==> temperatureC == -265.5
    ensures r.Ok? ==> r.value == InAllUnits(r.value.hPa, if 0.0 <= temperatureC then Water else Ice)
  {
    var t := temperatureC;
    if t >= 0.0 then
      Ok(InAllUnits(6.1078 * n.exp((17.27 * t) / (t + 237.3)), Water))
    else if t + 265.5 == 0.0 then
      Err(ZeroDivision)
    else
      Ok(InAllUnits(6.1078 * n.exp((21.875 * t) / (t + 265.5)), Ice))
  }

  /** water constants from 0°C up (so 0°C is "water"), ice constants below; the only failure is at
      -265.5°C; the pascal and mmHg values are 100 and 0.750062 times the hPa value; a positive
      `exp` gives a positive pressure, and at 0°C the pressure is exactly 6.1078 hPa */
  lemma SaturationVapourPressurePhases(n: Numerics, temperatureC: real)
    ensures var r := SaturationVapourPressure(n, temperatureC);
      && (r.Err? <==> temperatureC == -265.5)
      && (r.Ok? ==> (r.value.phase == Water <==> 0.0 <= temperatureC))
      && (r.Ok? ==> r.value.pa == 100.0 * r.value.hPa && r.value.mmHg == 0.750062 * r.value.hPa)
      && (r.Ok? && ExpPositive(n) ==> 0.0 < r.value.hPa)
      && (temperatureC == 0.0 && n.exp(0.0) == 1.0 ==> r == Ok(InAllUnits(6.1078, Water)))
  {
    if temperatureC == 0.0 {
      assert (17.27 * temperatureC) / (temperatureC + 237.3) == 0.0;
    }
  }
}
