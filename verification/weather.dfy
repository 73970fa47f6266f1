/** The weather widget: parameter normalisation, the unit symbol, the fixed
    demo data, and the forecast grid its embedded script writes into the
    content area. No weather data is fetched.
 */
module Weather {
  import opened Query
  import opened Style

  const DefaultCity := "New York"
  const DefaultUnits := "celsius"
  const DefaultForecast := "today"

  const CelsiusSymbol := "\U{B0}C"
  const FahrenheitSymbol := "\U{B0}F"
  const DemoCondition := "Partly Cloudy"
  const ForecastLabels := ["Today", "Tomorrow", "Wed"]

  /** The normalised weather parameters; `city` is display text only. */
  datatype WeatherParams = WeatherParams(city: string, units: string, forecast: string, style: StyleParams)

  /** The normalisation at the head of `generateWeatherWidget`. */
  function WeatherParamsOf(q: Params): (p: WeatherParams)
    ensures p.units == "celsius" <==> !("units" in q && q["units"] !in {"", "celsius"})
    ensures p.forecast == "3day" <==> "forecast" in q && q["forecast"] == "3day"
    ensures "city" in q && q["city"] != "" ==> p.city == q["city"]
    ensures !("city" in q && q["city"] != "") ==> p.city == DefaultCity
    ensures p.style == StyleOf(q)
  {
    WeatherParams(
      Param(q, "city", DefaultCity),
      Param(q, "units", DefaultUnits),
      Param(q, "forecast", DefaultForecast),
      StyleOf(q))
  }

  /** One cell of the forecast grid. */
  datatype ForecastDay = ForecastDay(day: string, temp: int)

  /** The `demoData` object of the script: a current temperature and the three
      forecast days, chosen by the unit system. */
  datatype DemoData = DemoData(temp: int, condition: string, days: seq<ForecastDay>)

  function Demo(celsius: bool): (d: DemoData)
    ensures |d.days| == 3
    ensures forall i :: 0 <= i < 3 ==> d.days[i].day == ForecastLabels[i]
    ensures d.temp == d.days[0].temp
    ensures d.condition == DemoCondition
    ensures [d.days[0].temp, d.days[1].temp, d.days[2].temp] == if celsius then [22, 24, 20] else [72, 75, 68]
  {
    if celsius then
      DemoData(22, DemoCondition, [ForecastDay("Today", 22), ForecastDay("Tomorrow", 24), ForecastDay("Wed", 20)])
    else
      DemoData(72, DemoCondition, [ForecastDay("Today", 72), ForecastDay("Tomorrow", 75), ForecastDay("Wed", 68)])
  }

  /** The content area once the script has run: the current reading, and the
      forecast grid only in 3-day mode. */
  datatype WeatherDocument = WeatherDocument(
    city: string, style: StyleParams, unitSymbol: string,
    temp: int, condition: string, forecast: seq<ForecastDay>)

  /** The document for given weather parameters. */
  function Render(p: WeatherParams): (d: WeatherDocument)
    ensures d.unitSymbol == CelsiusSymbol <==> p.units == "celsius"
    ensures d.unitSymbol in {CelsiusSymbol, FahrenheitSymbol}
    ensures |d.forecast| == (if p.forecast == "3day" then 3 else 0)
    ensures forall i :: 0 <= i < |d.forecast| ==> d.forecast[i].day == ForecastLabels[i]
    ensures d.forecast != [] ==> d.forecast[0].temp == d.temp
    ensures d.temp == (if p.units == "celsius" then 22 else 72)
    ensures d.condition == DemoCondition
    ensures d.city == p.city && d.style == p.style
  {
    var celsius := p.units == "celsius";
    var unitSymbol := if celsius then CelsiusSymbol else FahrenheitSymbol;
    var demo := Demo(celsius);
    var grid := if p.forecast == "3day" then demo.days else [];
    WeatherDocument(p.city, p.style, unitSymbol, demo.temp, demo.condition, grid)
  }

  /** `generateWeatherWidget`. */
  function Generate(q: Params): (d: WeatherDocument)
    ensures d.unitSymbol == CelsiusSymbol <==> !("units" in q && q["units"] !in {"", "celsius"})
    ensures |d.forecast| == 3 <==> "forecast" in q && q["forecast"] == "3day"
    ensures d.forecast != [] ==>
              (|d.forecast| == 3 && forall i :: 0 <= i < 3 ==> d.forecast[i].day == ForecastLabels[i])
    ensures d.temp == (if d.unitSymbol == CelsiusSymbol then 22 else 72)
    ensures "city" in q && q["city"] != "" ==> d.city == q["city"]
    ensures !("city" in q && q["city"] != "") ==> d.city == DefaultCity
    ensures d.style == StyleOf(q)
  {
    Render(WeatherParamsOf(q))
  }

  /** With only the widget type given: New York, Celsius, no forecast grid. */
  lemma WeatherDefaults()
    ensures Generate(map["type" := "weather"]) ==
            WeatherDocument(DefaultCity, DefaultStyle, CelsiusSymbol, 22, DemoCondition, [])
  {
  }

  /** In 3-day mode the grid shows "Today", "Tomorrow", "Wed" in that order, and
      its first cell repeats the current reading. */
  lemma ThreeDayForecast(q: Params)
    requires "forecast" in q && q["forecast"] == "3day"
    ensures |Generate(q).forecast| == 3
    ensures Generate(q).forecast[0].day == "Today"
    ensures Generate(q).forecast[1].day == "Tomorrow"
    ensures Generate(q).forecast[2].day == "Wed"
    ensures Generate(q).forecast[0].temp == Generate(q).temp
    ensures var celsius := Generate(q).unitSymbol == CelsiusSymbol;
            [Generate(q).forecast[0].temp, Generate(q).forecast[1].temp, Generate(q).forecast[2].temp]
              == if celsius then [22, 24, 20] else [72, 75, 68]
  {
  }

  /** Every unit system other than "celsius" (including "kelvin") is shown as Fahrenheit. */
  lemma OtherUnitsAreFahrenheit(q: Params, units: string)
    requires units !in {"", "celsius"}
    ensures Generate(q["units" := units]) == Generate(q["units" := "fahrenheit"])
    ensures Generate(q["units" := units]).unitSymbol == FahrenheitSymbol
  {
  }
}
