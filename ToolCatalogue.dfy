/**
 The static catalogue of tools the weather calculations server registers at
 start-up: one descriptor per calculation, with its handler, its description
 and the JSON-schema-like description of its parameters.
 */
module ToolCatalogue {
  import WeatherCalculations

  datatype ParamType = Number | Integer

  datatype Default = NoDefault | DefaultValue(value: real)

  datatype Property = Property(name: string, paramType: ParamType, description: string, default: Default)

  /** the calculation a tool runs, one per handler of the server */
  datatype Handler =
    | CelsiusToFahrenheitHandler
    | FahrenheitToCelsiusHandler
    | HeatIndexHandler
    | WindChillHandler
    | DewPointHandler
    | SeaLevelPressureHandler
    | FeelsLikeHandler
    | SunriseSunsetHandler
    | UvIndexHandler
    | SaturationVapourPressureHandler

  datatype ToolDescriptor = ToolDescriptor(
    name: string,
    handler: Handler,
    description: string,
    properties: seq<Property>,
    required: seq<string>
  )

  function Num(name: string, description: string): Property
  {
    Property(name, Number, description, NoDefault)
  }

  const CelsiusToFahrenheitTool: ToolDescriptor :=
    ToolDescriptor("celsius_to_fahrenheit", CelsiusToFahrenheitHandler,
      "Convert temperature from Celsius to Fahrenheit",
      [Num("celsius", "Temperature in Celsius")],
      ["celsius"])

  const FahrenheitToCelsiusTool: ToolDescriptor :=
    ToolDescriptor("fahrenheit_to_celsius", FahrenheitToCelsiusHandler,
      "Convert temperature from Fahrenheit to Celsius",
      [Num("fahrenheit", "Temperature in Fahrenheit")],
      ["fahrenheit"])

  const HeatIndexTool: ToolDescriptor :=
    ToolDescriptor("calculate_heat_index", HeatIndexHandler,
      "Calculate heat index from temperature and humidity",
      [Num("temperature_f", "Temperature in Fahrenheit"),
       Num("humidity", "Relative humidity percentage (0-100)")],
      ["temperature_f", "humidity"])

  const WindChillTool: ToolDescriptor :=
    ToolDescriptor("calculate_wind_chill", WindChillHandler,
      "Calculate wind chill temperature",
      [Num("temperature_f", "Temperature in Fahrenheit"),
       Num("wind_speed_mph", "Wind speed in miles per hour")],
      ["temperature_f", "wind_speed_mph"])

  const DewPointTool: ToolDescriptor :=
    ToolDescriptor("calculate_dew_point", DewPointHandler,
      "Calculate dew point from temperature and humidity",
      [Num("temperature_c", "Temperature in Celsius"),
       Num("humidity", "Relative humidity percentage (0-100)")],
      ["temperature_c", "humidity"])

  const SeaLevelPressureTool: ToolDescriptor :=
    ToolDescriptor("pressure_altitude_to_sea_level", SeaLevelPressureHandler,
      "Convert pressure reading to sea level equivalent",
      [Num("pressure_hpa", "Pressure in hectopascals (hPa)"),
       Num("altitude_m", "Altitude in meters above sea level"),
       Num("temperature_c", "Temperature in Celsius")],
      ["pressure_hpa", "altitude_m", "temperature_c"])

  const FeelsLikeTool: ToolDescriptor :=
    ToolDescriptor("calculate_feels_like", FeelsLikeHandler,
      "Calculate apparent temperature (feels like) considering wind and humidity",
      [Num("temperature_c", "Temperature in Celsius"),
       Num("humidity", "Relative humidity percentage (0-100)"),
       Num("wind_speed_kmh", "Wind speed in km/h")],
      ["temperature_c", "humidity", "wind_speed_kmh"])

  const SunriseSunsetTool: ToolDescriptor :=
    ToolDescriptor("sunrise_sunset_times", SunriseSunsetHandler,
      "Calculate sunrise and sunset times for given coordinates and date",
      [Num("latitude", "Latitude in decimal degrees"),
       Num("longitude", "Longitude in decimal degrees"),
       Property("day_of_year", Integer, "Day of year (1-365)", NoDefault)],
      ["latitude", "longitude", "day_of_year"])

  const UvIndexTool: ToolDescriptor :=
    ToolDescriptor("uv_index_from_solar_elevation", UvIndexHandler,
      "Calculate UV index from solar elevation angle",
      [Num("solar_elevation_degrees", "Solar elevation angle in degrees (0-90)"),
       Property("ozone_thickness", Number, "Ozone layer thickness in Dobson units (default: 300)", DefaultValue(300.0)),
       Property("cloud_cover", Number, "Cloud cover percentage (0-100, default: 0)", DefaultValue(0.0))],
      ["solar_elevation_degrees"])

  const SaturationVapourPressureTool: ToolDescriptor :=
    ToolDescriptor("saturation_vapor_pressure", SaturationVapourPressureHandler,
      "Calculate saturation vapor pressure at given temperature",
      [Num("temperature_c", "Temperature in Celsius")],
      ["temperature_c"])

  /** the tools in the order `_register_tools` registers them */
  const WeatherTools: seq<ToolDescriptor> := [
    CelsiusToFahrenheitTool,
    FahrenheitToCelsiusTool,
    HeatIndexTool,
    WindChillTool,
    DewPointTool,
    SeaLevelPressureTool,
    FeelsLikeTool,
    SunriseSunsetTool,
    UvIndexTool,
    SaturationVapourPressureTool
  ]

  function PropertyNames(properties: seq<Property>): (names: seq<string>)
    ensures |names| == |properties|
    ensures forall i :: 0 <= i < |properties| ==> names[i] == properties[i].name
  {
    if properties == [] then [] else [properties[0].name] + PropertyNames(properties[1..])
  }

  predicate Distinct<T(==)>(s: seq<T>)
  {
    forall i, j :: 0 <= i < j < |s| ==> s[i] != s[j]
  }

  /** a descriptor is well formed when its property names are distinct, every required name is
      a declared property, and only optional properties carry a default */
  predicate WellFormed(tool: ToolDescriptor)
  {
    && Distinct(PropertyNames(tool.properties))
    && Distinct(tool.required)
    && (forall i :: 0 <= i < |tool.required| ==> tool.required[i] in PropertyNames(tool.properties))
    && (forall i :: 0 <= i < |tool.properties| && tool.properties[i].default.DefaultValue? ==>
          tool.properties[i].name !in tool.required)
  }

  /** ten tools with distinct names, each bound to a different handler, each well formed */
  lemma CatalogueWellFormed()
    ensures |WeatherTools| == 10
    ensures forall i, j :: 0 <= i < j < |WeatherTools| ==> WeatherTools[i].name != WeatherTools[j].name
    ensures forall i, j :: 0 <= i < j < |WeatherTools| ==> WeatherTools[i].handler != WeatherTools[j].handler
    ensures forall k :: 0 <= k < |WeatherTools| ==> WellFormed(WeatherTools[k])
  {
    ToolNamesDistinct();
    HandlersDistinct();
    forall k | 0 <= k < |WeatherTools|
      ensures WellFormed(WeatherTools[k])
    {
      ToolWellFormed(k);
    }
  }

  lemma ToolNamesDistinct()
    ensures forall i, j :: 0 <= i < j < |WeatherTools| ==> WeatherTools[i].name != WeatherTools[j].name
  {
  }

  lemma HandlersDistinct()
    ensures forall i, j :: 0 <= i < j < |WeatherTools| ==> WeatherTools[i].handler != WeatherTools[j].handler
  {
  }

  lemma ToolWellFormed(k: nat)
    requires k < |WeatherTools|
    ensures WellFormed(WeatherTools[k])
  {
    if k == 0 { assert WeatherTools[k] == CelsiusToFahrenheitTool; CelsiusToFahrenheitToolWellFormed(); }
    else if k == 1 { assert WeatherTools[k] == FahrenheitToCelsiusTool; FahrenheitToCelsiusToolWellFormed(); }
    else if k == 2 { assert WeatherTools[k] == HeatIndexTool; HeatIndexToolWellFormed(); }
    else if k == 3 { assert WeatherTools[k] == WindChillTool; WindChillToolWellFormed(); }
    else if k == 4 { assert WeatherTools[k] == DewPointTool; DewPointToolWellFormed(); }
    else if k == 5 { assert WeatherTools[k] == SeaLevelPressureTool; SeaLevelPressureToolWellFormed(); }
    else if k == 6 { assert WeatherTools[k] == FeelsLikeTool; FeelsLikeToolWellFormed(); }
    else if k == 7 { assert WeatherTools[k] == SunriseSunsetTool; SunriseSunsetToolWellFormed(); }
    else if k == 8 { assert WeatherTools[k] == UvIndexTool; UvIndexToolWellFormed(); }
    else { assert WeatherTools[k] == SaturationVapourPressureTool; SaturationVapourPressureToolWellFormed(); }
  }

  lemma CelsiusToFahrenheitToolWellFormed()
    ensures WellFormed(CelsiusToFahrenheitTool)
  {
  }

  lemma FahrenheitToCelsiusToolWellFormed()
    ensures WellFormed(FahrenheitToCelsiusTool)
  {
  }

  lemma HeatIndexToolWellFormed()
    ensures WellFormed(HeatIndexTool)
  {
  }

  lemma WindChillToolWellFormed()
    ensures WellFormed(WindChillTool)
  {
  }

  lemma DewPointToolWellFormed()
    ensures WellFormed(DewPointTool)
  {
  }

  lemma SeaLevelPressureToolWellFormed()
    ensures WellFormed(SeaLevelPressureTool)
  {
  }

  lemma FeelsLikeToolWellFormed()
    ensures WellFormed(FeelsLikeTool)
  {
  }

  lemma SunriseSunsetToolWellFormed()
    ensures WellFormed(SunriseSunsetTool)
  {
  }

  lemma UvIndexToolWellFormed()
    ensures WellFormed(UvIndexTool)
  {
  }

  lemma SaturationVapourPressureToolWellFormed()
    ensures WellFormed(SaturationVapourPressureTool)
  {
  }

  /** the defaults the UV tool advertises are the ones its handler uses */
  lemma UvDefaultsMatchHandler()
    ensures WeatherTools[8].handler == UvIndexHandler
    ensures WeatherTools[8].properties[1].default == DefaultValue(WeatherCalculations.DefaultOzoneThickness)
    ensures WeatherTools[8].properties[2].default == DefaultValue(WeatherCalculations.DefaultCloudCover)
  {
  }
}
