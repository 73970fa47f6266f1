/** The GET handler of the render endpoint: validation of the `type`
    parameter, dispatch to the matching widget generator, and the response
    status and headers.
 */
module Route {
  import opened Query
  import Clock
  import Weather
  import Countdown

  /** The closed set of widget kinds. */
  datatype WidgetType = ClockWidget | WeatherWidget | CountdownWidget

  const TypeNames := {"clock", "weather", "countdown"}

  /** `type` is present, non-empty and one of the three widget names. */
  predicate ValidType(q: Params) {
    "type" in q && q["type"] in TypeNames
  }

  /** The validation `!widgetType || ![...].includes(widgetType)`, read as a parse. */
  function ParseWidgetType(raw: Option<string>): (t: Option<WidgetType>)
    ensures t.Some? <==> raw.Some? && raw.value in TypeNames
    ensures t == Some(ClockWidget) <==> raw == Some("clock")
    ensures t == Some(WeatherWidget) <==> raw == Some("weather")
    ensures t == Some(CountdownWidget) <==> raw == Some("countdown")
  {
    if !Truthy(raw) then None
    else match raw.value
      case "clock" => Some(ClockWidget)
      case "weather" => Some(WeatherWidget)
      case "countdown" => Some(CountdownWidget)
      case _ => None
  }

  /** A generated widget document. */
  datatype Document =
    | ClockPage(clock: Clock.ClockDocument)
    | WeatherPage(weather: Weather.WeatherDocument)
    | CountdownPage(countdown: Countdown.CountdownDocument)

  datatype Body = PlainText(text: string) | Html(doc: Document)

  datatype Response = Response(status: int, headers: map<string, string>, body: Body)

  const InvalidTypeMessage := "Invalid widget type. Use: clock, weather, or countdown"

  const PlainTextHeaders := map["Content-Type" := "text/plain"]

  /** The headers of every successful render: HTML, cacheable for 60 seconds
      by browsers and shared caches, embeddable in any frame from any origin. */
  const EmbedHeaders := map[
    "Content-Type" := "text/html; charset=utf-8",
    "Cache-Control" := "public, max-age=60, s-maxage=60",
    "X-Frame-Options" := "ALLOWALL",
    "Access-Control-Allow-Origin" := "*"]

  /** The generator for a widget kind. */
  function Dispatch(t: WidgetType, q: Params, defaultDate: string): (doc: Document)
    ensures doc.ClockPage? <==> t == ClockWidget
    ensures doc.WeatherPage? <==> t == WeatherWidget
    ensures doc.CountdownPage? <==> t == CountdownWidget
    ensures doc.ClockPage? ==> doc.clock == Clock.Generate(q)
    ensures doc.WeatherPage? ==> doc.weather == Weather.Generate(q)
    ensures doc.CountdownPage? ==> doc.countdown == Countdown.Generate(q, defaultDate)
  {
    match t
    case ClockWidget => ClockPage(Clock.Generate(q))
    case WeatherWidget => WeatherPage(Weather.Generate(q))
    case CountdownWidget => CountdownPage(Countdown.Generate(q, defaultDate))
  }

  /** `GET`. `defaultDate` is the countdown's fallback date, which the handler
      derives from the wall clock. */
  function Handle(q: Params, defaultDate: string): (r: Response)
    ensures r.status == 400 <==> !ValidType(q)
    ensures r.status == 200 <==> ValidType(q)
    ensures r.status == 400 ==> r.headers == PlainTextHeaders && r.body == PlainText(InvalidTypeMessage)
    ensures r.status == 200 ==> r.headers == EmbedHeaders && r.body.Html?
    ensures r.status == 200 && q["type"] == "clock" ==> r.body.doc == ClockPage(Clock.Generate(q))
    ensures r.status == 200 && q["type"] == "weather" ==> r.body.doc == WeatherPage(Weather.Generate(q))
    ensures r.status == 200 && q["type"] == "countdown" ==>
              r.body.doc == CountdownPage(Countdown.Generate(q, defaultDate))
  {
    match ParseWidgetType(Get(q, "type"))
    case None => Response(400, PlainTextHeaders, PlainText(InvalidTypeMessage))
    case Some(t) => Response(200, EmbedHeaders, Html(Dispatch(t, q, defaultDate)))
  }

  /** A rejected request is rejected the same way whatever else it carries:
      no generator contributes to the answer. */
  lemma RejectionIgnoresOtherParams(q: Params, q': Params, defaultDate: string, defaultDate': string)
    requires !ValidType(q) && !ValidType(q')
    ensures Handle(q, defaultDate) == Handle(q', defaultDate')
  {
  }

  /** A missing and an empty `type` are both rejected. */
  lemma MissingOrEmptyTypeRejected(q: Params, defaultDate: string)
    requires "type" !in q || q["type"] == ""
    ensures Handle(q, defaultDate).status == 400
  {
  }

  /** Every successful response can be framed by, and read from, any origin. */
  lemma SuccessIsEmbeddable(q: Params, defaultDate: string)
    requires Handle(q, defaultDate).status == 200
    ensures Handle(q, defaultDate).headers["X-Frame-Options"] == "ALLOWALL"
    ensures Handle(q, defaultDate).headers["Access-Control-Allow-Origin"] == "*"
    ensures Handle(q, defaultDate).headers["Content-Type"] == "text/html; charset=utf-8"
  {
  }

  /** Only the countdown reads the fallback date. */
  lemma DefaultDateOnlyForCountdown(q: Params, defaultDate: string, defaultDate': string)
    requires !("type" in q && q["type"] == "countdown")
    ensures Handle(q, defaultDate) == Handle(q, defaultDate')
  {
  }
}
