/** The countdown widget: parameter normalisation, and the embedded script
    that splits the remaining milliseconds into days, hours, minutes and
    seconds once a second, until the event has passed.
 */
module Countdown {
  import opened Query
  import opened Style

  const DefaultEventName := "Event"
  const PassedMessage := "Event has passed!"

  const MsPerSecond := 1000
  const MsPerMinute := 1000 * 60
  const MsPerHour := 1000 * 60 * 60
  const MsPerDay := 1000 * 60 * 60 * 24

  /** The normalised countdown parameters. `eventDate` is a calendar date
      string passed through unchecked. */
  datatype CountdownParams = CountdownParams(eventName: string, eventDate: string, style: StyleParams)

  /** The normalisation at the head of `generateCountdownWidget`. `defaultDate`
      is the UTC calendar date 24 hours after rendering, which the caller
      computes from its wall clock. */
  function CountdownParamsOf(q: Params, defaultDate: string): (p: CountdownParams)
    ensures "event" in q && q["event"] != "" ==> p.eventName == q["event"]
    ensures !("event" in q && q["event"] != "") ==> p.eventName == DefaultEventName
    ensures "date" in q && q["date"] != "" ==> p.eventDate == q["date"]
    ensures !("date" in q && q["date"] != "") ==> p.eventDate == defaultDate
    ensures p.style == StyleOf(q)
  {
    CountdownParams(Param(q, "event", DefaultEventName), Param(q, "date", defaultDate), StyleOf(q))
  }

  // ---------------------------------------------------------------------
  // Splitting the remaining time.
  // ---------------------------------------------------------------------

  /** The four numbers the grid shows. */
  datatype Parts = Parts(days: int, hours: int, minutes: int, seconds: int)

  /** Every field within its clock range, and no field negative. */
  predicate InRange(p: Parts) {
    p.days >= 0 && 0 <= p.hours < 24 && 0 <= p.minutes < 60 && 0 <= p.seconds < 60
  }

  /** The milliseconds the four numbers stand for. */
  function PartsMs(p: Parts): int {
    p.days * MsPerDay + p.hours * MsPerHour + p.minutes * MsPerMinute + p.seconds * MsPerSecond
  }

  /** A positive multiple of `b` is at least `b`. */
  lemma {:induction false} MulAtLeast(k: int, b: int)
    requires k >= 1 && b > 0
    ensures k * b >= b
  {
    if k > 1 {
      MulAtLeast(k - 1, b);
      assert k * b == (k - 1) * b + b;
    }
  }

  /** The only multiple of `b` strictly between `-b` and `b` is zero. */
  lemma SmallMultipleIsZero(k: int, b: int)
    requires b > 0 && -b < k * b < b
    ensures k == 0
  {
    if k >= 1 {
      MulAtLeast(k, b);
    } else if k <= -1 {
      MulAtLeast(-k, b);
    }
  }

  /** Euclidean division is characterised by its quotient and remainder. */
  lemma DivModUnique(n: int, b: int, q: int, r: int)
    requires b > 0 && 0 <= r < b && n == q * b + r
    ensures n / b == q && n % b == r
  {
    var k := n / b - q;
    assert k * b == r - n % b;
    SmallMultipleIsZero(k, b);
  }

  /** The split of the script: `Math.floor` of the quotients of the
      distance and its remainders. The distance is never negative here, so
      JavaScript's truncating `%` agrees with Dafny's. */
  function Decompose(distance: int): (p: Parts)
    requires distance >= 0
    ensures InRange(p)
    ensures PartsMs(p) + distance % MsPerSecond == distance
  {
    var p := Parts(distance / MsPerDay,
                   (distance % MsPerDay) / MsPerHour,
                   (distance % MsPerHour) / MsPerMinute,
                   (distance % MsPerMinute) / MsPerSecond);
    SplitAgrees(distance);
    p
  }

  /** Each remainder the script divides is also the remainder of the
      previous one, so the four quotients add back up to the distance. */
  lemma SplitAgrees(distance: int)
    requires distance >= 0
    ensures var p := Parts(distance / MsPerDay,
                           (distance % MsPerDay) / MsPerHour,
                           (distance % MsPerHour) / MsPerMinute,
                           (distance % MsPerMinute) / MsPerSecond);
            InRange(p) && PartsMs(p) + distance % MsPerSecond == distance
  {
    var d := distance / MsPerDay;
    var rd := distance % MsPerDay;
    var h := rd / MsPerHour;
    var rh := rd % MsPerHour;
    assert rd == h * MsPerHour + rh;
    assert distance == (d * 24 + h) * MsPerHour + rh;
    DivModUnique(distance, MsPerHour, d * 24 + h, rh);
    var m := rh / MsPerMinute;
    var rm := rh % MsPerMinute;
    assert distance == ((d * 24 + h) * 60 + m) * MsPerMinute + rm;
    DivModUnique(distance, MsPerMinute, (d * 24 + h) * 60 + m, rm);
    var s := rm / MsPerSecond;
    var rs := rm % MsPerSecond;
    assert distance == (((d * 24 + h) * 60 + m) * 60 + s) * MsPerSecond + rs;
    DivModUnique(distance, MsPerSecond, ((d * 24 + h) * 60 + m) * 60 + s, rs);
  }

  /** The split is the only in-range way to write the distance as days,
      hours, minutes, seconds and leftover milliseconds. */
  lemma DecomposeUnique(distance: int, p: Parts, ms: int)
    requires distance >= 0 && InRange(p) && 0 <= ms < MsPerSecond
    requires PartsMs(p) + ms == distance
    ensures Decompose(distance) == p
  {
    var belowDay := p.hours * MsPerHour + p.minutes * MsPerMinute + p.seconds * MsPerSecond + ms;
    DivModUnique(distance, MsPerDay, p.days, belowDay);
    var belowHour := p.minutes * MsPerMinute + p.seconds * MsPerSecond + ms;
    DivModUnique(belowDay, MsPerHour, p.hours, belowHour);
    DivModUnique(distance, MsPerHour, p.days * 24 + p.hours, belowHour);
    var belowMinute := p.seconds * MsPerSecond + ms;
    DivModUnique(belowHour, MsPerMinute, p.minutes, belowMinute);
    DivModUnique(distance, MsPerMinute, (p.days * 24 + p.hours) * 60 + p.minutes, belowMinute);
    DivModUnique(belowMinute, MsPerSecond, p.seconds, ms);
  }

  /** A target exactly two days and three hours ahead shows 2, 3, 0, 0. */
  lemma TwoDaysThreeHours(now: int)
    ensures Decompose((now + 2 * MsPerDay + 3 * MsPerHour) - now) == Parts(2, 3, 0, 0)
  {
    DecomposeUnique(2 * MsPerDay + 3 * MsPerHour, Parts(2, 3, 0, 0), 0);
  }

  /** Less time remaining never shows more time remaining. */
  lemma DecomposeMonotone(earlier: int, later: int)
    requires 0 <= later <= earlier
    ensures PartsMs(Decompose(later)) <= PartsMs(Decompose(earlier))
  {
    var a := later / MsPerSecond;
    var b := earlier / MsPerSecond;
    assert PartsMs(Decompose(later)) == a * MsPerSecond;
    assert PartsMs(Decompose(earlier)) == b * MsPerSecond;
  }

  // ---------------------------------------------------------------------
  // The script's display, tick by tick.
  // ---------------------------------------------------------------------

  /** What the countdown container shows: the four-cell grid, or the
      terminal message that replaced it. */
  datatype Display = Grid(parts: Parts) | Passed

  /** The markup shows 0 in every cell before the first update. */
  const Initial := Grid(Parts(0, 0, 0, 0))

  /** One run of `updateCountdown` with `distance` milliseconds left.
      A negative distance replaces the container with the terminal message.
      Once that has happened the grid cells no longer exist, so on a
      non-negative distance the first cell write throws and the message
      stays. */
  function Update(shown: Display, distance: int): (next: Display)
    ensures next.Passed? <==> distance < 0 || shown.Passed?
    ensures next.Grid? ==> InRange(next.parts) && PartsMs(next.parts) + distance % MsPerSecond == distance
  {
    if distance < 0 then Passed
    else match shown
      case Passed => Passed
      case Grid(_) => Grid(Decompose(distance))
  }

  /** Running an update twice on the same distance is running it once. */
  lemma UpdateIdempotent(shown: Display, distance: int)
    ensures Update(Update(shown, distance), distance) == Update(shown, distance)
  {
  }

  /** The updates of successive ticks, with the distances in tick order. */
  function Run(shown: Display, distances: seq<int>): (last: Display)
    decreases |distances|
    ensures last.Passed? <==> shown.Passed? || exists i :: 0 <= i < |distances| && distances[i] < 0
    ensures last.Grid? && distances != [] ==> last.parts == Decompose(distances[|distances| - 1])
    ensures distances == [] ==> last == shown
  {
    if distances == [] then shown
    else
      var next := Update(shown, distances[0]);
      var last := Run(next, distances[1..]);
      assert forall i :: 1 <= i < |distances| ==> distances[i] == distances[1..][i - 1];
      last
  }

  /** Once the event has passed, no later tick brings the grid back. */
  lemma PassedIsFinal(distances: seq<int>, later: seq<int>)
    requires exists i :: 0 <= i < |distances| && distances[i] < 0
    ensures Run(Run(Initial, distances), later) == Passed
  {
  }

  /** The generated countdown document, reduced to the values it carries. */
  datatype CountdownDocument = CountdownDocument(eventName: string, eventDate: string, style: StyleParams, display: Display)

  /** `generateCountdownWidget`. */
  function Generate(q: Params, defaultDate: string): (d: CountdownDocument)
    ensures d.display == Initial
    ensures "event" in q && q["event"] != "" ==> d.eventName == q["event"]
    ensures !("event" in q && q["event"] != "") ==> d.eventName == DefaultEventName
    ensures "date" in q && q["date"] != "" ==> d.eventDate == q["date"]
    ensures !("date" in q && q["date"] != "") ==> d.eventDate == defaultDate
    ensures d.style == StyleOf(q)
  {
    var p := CountdownParamsOf(q, defaultDate);
    CountdownDocument(p.eventName, p.eventDate, p.style, Initial)
  }

  /** An empty `event` or `date` renders exactly as a missing one. */
  lemma EmptyEventParamsAreMissing(q: Params, defaultDate: string)
    ensures Generate(q["event" := ""], defaultDate) == Generate(q - {"event"}, defaultDate)
    ensures Generate(q["date" := ""], defaultDate) == Generate(q - {"date"}, defaultDate)
  {
    EmptyParamIsMissing(q, defaultDate, "event");
    EmptyParamIsMissing(q, defaultDate, "date");
  }

  /** One non-styling key set to "" renders as if it were absent. */
  lemma EmptyParamIsMissing(q: Params, defaultDate: string, key: string)
    requires key in {"event", "date"}
    ensures Generate(q[key := ""], defaultDate) == Generate(q - {key}, defaultDate)
  {
    var a, b := q[key := ""], q - {key};
    StyleUnaffected(a, b, key);
    assert CountdownParamsOf(a, defaultDate) == CountdownParamsOf(b, defaultDate);
  }

  /** The styling depends only on the four styling keys. */
  lemma StyleUnaffected(a: Params, b: Params, key: string)
    requires key !in {"bg", "color", "font", "padding"}
    requires forall k :: k != key ==> Get(a, k) == Get(b, k)
    ensures StyleOf(a) == StyleOf(b)
  {
    assert Get(a, "bg") == Get(b, "bg");
    assert Get(a, "color") == Get(b, "color");
    assert Get(a, "font") == Get(b, "font");
    assert Get(a, "padding") == Get(b, "padding");
  }

  /** With only the widget type given: the event is called "Event", falls on
      the default date, and is drawn in the default styling. */
  lemma CountdownDefaults(defaultDate: string)
    ensures Generate(map["type" := "countdown"], defaultDate) ==
            CountdownDocument(DefaultEventName, defaultDate, DefaultStyle, Initial)
  {
  }
}
