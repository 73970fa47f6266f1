/** The clock widget: parameter normalisation, the choice between the analog
    and the digital document, the time-format options of the embedded script,
    and the hand angles the analog script computes every second.
 */
module Clock {
  import opened Query
  import opened Style

  const DefaultTimezone := "America/New_York"
  const DefaultClockType := "12h"

  /** The normalised clock parameters. `timezone` is passed through unchecked. */
  datatype ClockParams = ClockParams(timezone: string, clockType: string, showSeconds: bool, style: StyleParams)

  /** The normalisation at the head of `generateClockWidget`. */
  function ClockParamsOf(q: Params): (p: ClockParams)
    ensures p.showSeconds <==> "seconds" in q && q["seconds"] == "true"
    ensures "tz" in q && q["tz"] != "" ==> p.timezone == q["tz"]
    ensures !("tz" in q && q["tz"] != "") ==> p.timezone == DefaultTimezone
    ensures "clockType" in q && q["clockType"] != "" ==> p.clockType == q["clockType"]
    ensures !("clockType" in q && q["clockType"] != "") ==> p.clockType == DefaultClockType
    ensures p.style == StyleOf(q)
  {
    ClockParams(
      Param(q, "tz", DefaultTimezone),
      Param(q, "clockType", DefaultClockType),
      Get(q, "seconds") == Some("true"),
      StyleOf(q))
  }

  datatype Hand = HourHand | MinuteHand | SecondHand

  /** The `toLocaleTimeString` options of the embedded script; hour and minute
      are always '2-digit', the seconds field is optional. */
  datatype TimeFormat = TimeFormat(second: bool, hour12: bool)

  /** The two mutually exclusive document variants. The analog face lists the
      hand elements in its markup; the digital one adds a full date line. */
  datatype Layout = Analog(hands: seq<Hand>) | Digital

  /** The generated clock document, reduced to the values and flags it carries. */
  datatype ClockDocument = ClockDocument(timezone: string, style: StyleParams, layout: Layout, format: TimeFormat)

  /** The hand elements of the analog face: the second hand only when seconds are shown. */
  function AnalogHands(showSeconds: bool): (hands: seq<Hand>)
    ensures SecondHand in hands <==> showSeconds
    ensures |hands| == if showSeconds then 3 else 2
    ensures hands[..2] == [HourHand, MinuteHand]
  {
    [HourHand, MinuteHand] + (if showSeconds then [SecondHand] else [])
  }

  /** The document for given clock parameters. */
  function Render(p: ClockParams): (d: ClockDocument)
    ensures d.layout.Analog? <==> p.clockType == "analog"
    ensures d.format.hour12 <==> p.clockType == "12h"
    ensures d.format.second <==> p.showSeconds
    ensures d.layout.Analog? ==> (SecondHand in d.layout.hands <==> p.showSeconds)
    ensures d.layout.Analog? ==> d.layout.hands == AnalogHands(p.showSeconds)
    ensures d.timezone == p.timezone && d.style == p.style
  {
    var format := TimeFormat(p.showSeconds, p.clockType == "12h");
    if p.clockType == "analog" then
      ClockDocument(p.timezone, p.style, Analog(AnalogHands(p.showSeconds)), format)
    else
      ClockDocument(p.timezone, p.style, Digital, format)
  }

  /** `generateClockWidget`. */
  function Generate(q: Params): (d: ClockDocument)
    ensures d.layout.Analog? <==> "clockType" in q && q["clockType"] == "analog"
    ensures d.format.hour12 <==> !("clockType" in q && q["clockType"] != "" && q["clockType"] != "12h")
    ensures d.format.second <==> "seconds" in q && q["seconds"] == "true"
    ensures d.layout.Analog? ==> (SecondHand in d.layout.hands <==> d.format.second)
    ensures d.layout.Analog? ==> d.layout.hands == AnalogHands(d.format.second)
    ensures "tz" in q && q["tz"] != "" ==> d.timezone == q["tz"]
    ensures !("tz" in q && q["tz"] != "") ==> d.timezone == DefaultTimezone
    ensures d.style == StyleOf(q)
  {
    Render(ClockParamsOf(q))
  }

  /** With only the widget type given, the clock is a 12-hour digital clock for
      New York without seconds, in the default styling. */
  lemma ClockDefaults()
    ensures Generate(map["type" := "clock"]) ==
            ClockDocument(DefaultTimezone, DefaultStyle, Digital, TimeFormat(false, true))
  {
  }

  /** Switching a digital clock between "12h" and "24h" changes the hour-format
      flag and nothing else. */
  lemma HourFormatIsTheOnlyDifference(q: Params)
    ensures Generate(q["clockType" := "24h"]) ==
            Generate(q["clockType" := "12h"]).(format := TimeFormat(Generate(q).format.second, false))
  {
  }

  /** Any non-empty clock type other than "analog" and "12h" is drawn as a
      24-hour digital clock. */
  lemma UnrecognisedClockTypeIs24h(q: Params, clockType: string)
    requires clockType !in {"", "analog", "12h"}
    ensures Generate(q["clockType" := clockType]) == Generate(q["clockType" := "24h"])
  {
  }

  /** An empty clock type is the default "12h", not a 24-hour clock. */
  lemma EmptyClockTypeIs12h(q: Params)
    ensures Generate(q["clockType" := ""]) == Generate(q["clockType" := "12h"])
  {
  }

  /** The digital readout under the analog face is always in 24-hour form,
      since the clock type is then "analog" and not "12h". */
  lemma AnalogReadoutIs24h(q: Params)
    requires Generate(q).layout.Analog?
    ensures !Generate(q).format.hour12
  {
  }

  // ---------------------------------------------------------------------
  // The analog script: hand angles from the viewer's local time of day.
  // ---------------------------------------------------------------------

  /** What `getHours`, `getMinutes` and `getSeconds` return. */
  datatype TimeOfDay = TimeOfDay(hours: int, minutes: int, seconds: int) {
    predicate Valid() {
      0 <= hours < 24 && 0 <= minutes < 60 && 0 <= seconds < 60
    }
  }

  /** The hour-hand angle `(hours % 12) * 30 + minutes * 0.5` counted in whole
      half-degrees, so that it stays an integer. */
  function HourHalfDegrees(t: TimeOfDay): (a: int)
    requires t.Valid()
    ensures 0 <= a < 720
  {
    (t.hours % 12) * 60 + t.minutes
  }

  /** `hourDeg`, in degrees. */
  function HourDegrees(t: TimeOfDay): (deg: real)
    requires t.Valid()
    ensures deg == HourHalfDegrees(t) as real / 2.0
    ensures 0.0 <= deg <= 359.5
  {
    (t.hours % 12) as real * 30.0 + t.minutes as real * 0.5
  }

  /** `minuteDeg`. */
  function MinuteDegrees(t: TimeOfDay): (deg: int)
    requires t.Valid()
    ensures 0 <= deg <= 354 && deg % 6 == 0
    ensures deg / 6 == t.minutes
  {
    t.minutes * 6
  }

  /** `secondDeg`. */
  function SecondDegrees(t: TimeOfDay): (deg: int)
    requires t.Valid()
    ensures 0 <= deg <= 354 && deg % 6 == 0
    ensures deg / 6 == t.seconds
  {
    t.seconds * 6
  }

  /** One `rotate(...)` statement of the script. */
  datatype Rotation = Rotation(hand: Hand, degrees: real)

  /** The rotation statements one tick of the analog script executes, in order. */
  function Tick(showSeconds: bool, t: TimeOfDay): (r: seq<Rotation>)
    requires t.Valid()
    ensures |r| == if showSeconds then 3 else 2
    ensures forall i :: 0 <= i < |r| ==> 0.0 <= r[i].degrees < 360.0
    ensures r[0] == Rotation(HourHand, HourDegrees(t))
    ensures r[1] == Rotation(MinuteHand, MinuteDegrees(t) as real)
    ensures showSeconds ==> r[2] == Rotation(SecondHand, SecondDegrees(t) as real)
  {
    [Rotation(HourHand, HourDegrees(t)), Rotation(MinuteHand, MinuteDegrees(t) as real)]
      + (if showSeconds then [Rotation(SecondHand, SecondDegrees(t) as real)] else [])
  }

  /** Every hand the script rotates has an element on the face, so the
      `getElementById(...)` lookups of the script never come back empty. */
  lemma RotatedHandsExist(q: Params, t: TimeOfDay)
    requires t.Valid()
    requires Generate(q).layout.Analog?
    ensures forall i :: 0 <= i < |Tick(Generate(q).format.second, t)| ==>
              Tick(Generate(q).format.second, t)[i].hand in Generate(q).layout.hands
  {
  }

  /** The hour hand alone tells the 12-hour time to the minute: its angle
      in half-degrees is hours-past-twelve times 60 plus the minutes. */
  lemma HourHandEncodesTime(t: TimeOfDay)
    requires t.Valid()
    ensures HourHalfDegrees(t) / 60 == t.hours % 12
    ensures HourHalfDegrees(t) % 60 == t.minutes
    ensures MinuteDegrees(t) == (HourHalfDegrees(t) % 60) * 6
  {
    var a := HourHalfDegrees(t);
    var h := t.hours % 12;
    assert a == h * 60 + t.minutes;
  }

  /** Two times of day show the same hour hand exactly when they agree on the
      12-hour clock to the minute. */
  lemma HourHandInjective(t: TimeOfDay, u: TimeOfDay)
    requires t.Valid() && u.Valid()
    ensures HourDegrees(t) == HourDegrees(u) <==> t.hours % 12 == u.hours % 12 && t.minutes == u.minutes
  {
    if HourDegrees(t) == HourDegrees(u) {
      assert HourHalfDegrees(t) == HourHalfDegrees(u);
      HourHandEncodesTime(t);
      HourHandEncodesTime(u);
    }
  }

  /** The face repeats every twelve hours. */
  lemma TwelveHourPeriod(t: TimeOfDay)
    requires t.Valid() && t.hours < 12
    ensures Tick(true, t) == Tick(true, t.(hours := t.hours + 12))
  {
    var u := t.(hours := t.hours + 12);
    assert u.hours % 12 == t.hours % 12;
    assert HourDegrees(u) == HourDegrees(t);
  }
}
