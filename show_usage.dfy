/**
 * The "Show Usage" detail view of the Claude usage extension: elapsed time against quota used
 * over the 5-hour session and the 168-hour week, the 24-segment timeline with its five pacing
 * bands, the remaining-time text and the 7-day calendar strip.
 *
 * The timeline and calendar glyphs are an enumeration; the clock is a parameter.
 */
module ShowUsage {
  import opened Wrappers
  import opened Numeric
  import opened Text
  import opened ResetParsing

  const SessionTotalMinutes: nat := 300
  const WeekTotalHours: nat := 168
  const SegmentCount: nat := 24

  // ---------------------------------------------------------------------------------------
  // Elapsed time
  // ---------------------------------------------------------------------------------------

  /** `sessionMinutesRemaining ? 300 - sessionMinutesRemaining : 0`. */
  function SessionElapsed(remaining: Option<nat>): (e: int)
    ensures remaining.None? ==> e == 0
    ensures remaining.Some? && remaining.value > 0 ==> e + remaining.value == SessionTotalMinutes
  {
    if remaining.Some? && remaining.value != 0 then SessionTotalMinutes - remaining.value else 0
  }

  /** `weeklyHoursRemaining ? 168 - weeklyHoursRemaining : 0`. */
  function WeekElapsed(remaining: Option<real>): (e: real)
    ensures remaining.None? ==> e == 0.0
    ensures remaining.Some? && remaining.value != 0.0 ==> e + remaining.value == WeekTotalHours as real
  {
    if remaining.Some? && remaining.value != 0.0 then WeekTotalHours as real - remaining.value else 0.0
  }

  /** A session reset text that does not parse leaves the elapsed time at zero. */
  lemma UnparsedSessionElapsedZero(resetsIn: Option<string>)
    requires ParseSessionResetTime(resetsIn).None?
    ensures SessionElapsed(ParseSessionResetTime(resetsIn)) == 0
  {
  }

  /** A parsed weekly reset time lies within the week, so the elapsed hours lie in [0, 168). */
  lemma WeekElapsedRange(resetsAt: Option<string>, now: Clock)
    requires ParseWeeklyTarget(resetsAt).Some?
    requires TargetMinuteOfDay(ParseWeeklyTarget(resetsAt).value) < 1440
    ensures 0.0 <= WeekElapsed(ParseWeeklyResetTime(resetsAt, now)) < WeekTotalHours as real
  {
    WeeklyResetHoursRange(resetsAt, now);
  }

  // ---------------------------------------------------------------------------------------
  // Timeline
  // ---------------------------------------------------------------------------------------

  /** The four timeline glyphs: time and usage together, time cursor, used, available. */
  datatype Segment = Both | TimeCursor | Used | Available

  /** The five status bands, from the green circle to the red one. */
  datatype Band = FarAhead | Ahead | OnPace | Behind | FarBehind

  /** `Math.round((elapsedUnits / totalDuration) * 100)`. */
  function ElapsedPercent(elapsedUnits: real, totalDuration: real): int
    requires totalDuration > 0.0
  {
    Round(elapsedUnits / totalDuration * 100.0)
  }

  /** `Math.round((pct / 100) * 24)`: the segment a percentage points at. */
  function Marker(pct: int): (m: int)
    ensures -0.5 < m as real - pct as real / 100.0 * SegmentCount as real <= 0.5
  {
    RoundNear(pct as real / 100.0 * SegmentCount as real);
    Round(pct as real / 100.0 * SegmentCount as real)
  }

  /**
   * The glyph of segment `i`: the time cursor wins over the usage fill, and the two
   * markers on one segment combine.
   */
  function SegmentAt(i: int, timeMarker: int, usageMarker: int): (s: Segment)
    ensures s == Both <==> i == timeMarker && i == usageMarker
    ensures s == TimeCursor <==> i == timeMarker && i != usageMarker
    ensures s == Used <==> i != timeMarker && i < usageMarker
    ensures s == Available <==> i != timeMarker && i >= usageMarker
  {
    if i == timeMarker && i == usageMarker then Both
    else if i == timeMarker then TimeCursor
    else if i < usageMarker then Used
    else Available
  }

  /** The band intervals: above 15, 1..15, 0, -14..-1, at most -15. */
  function BandOf(pacing: int): (b: Band)
    ensures b == FarAhead <==> pacing > 15
    ensures b == Ahead <==> 1 <= pacing <= 15
    ensures b == OnPace <==> pacing == 0
    ensures b == Behind <==> -14 <= pacing <= -1
    ensures b == FarBehind <==> pacing <= -15
  {
    if pacing > 15 then FarAhead
    else if pacing > 0 then Ahead
    else if pacing == 0 then OnPace
    else if pacing > -15 then Behind
    else FarBehind
  }

  /** The status shows the magnitude of the pacing, with "ahead" or "behind" for its sign. */
  function StatusText(pacing: int): (text: string)
    ensures pacing > 0 ==> text == NatToString(pacing) + "% ahead"
    ensures pacing < 0 ==> text == NatToString(-pacing) + "% behind"
    ensures text == "On pace" <==> pacing == 0
  {
    if pacing > 0 then
      var t := IntToString(pacing) + "% ahead";
      assert t[|t| - 2] == 'a';
      t
    else if pacing == 0 then "On pace"
    else
      var t := NatToString(Abs(pacing)) + "% behind";
      assert t[|t| - 2] == 'n';
      t
  }

  /** `timeRemaining || "?"`. */
  function LeftText(timeRemaining: Option<string>): (r: string)
    ensures timeRemaining.Some? && timeRemaining.value != "" ==> r == timeRemaining.value
    ensures timeRemaining.None? || timeRemaining.value == "" ==> r == "?"
  {
    if timeRemaining.None? || timeRemaining.value == "" then "?" else timeRemaining.value
  }

  datatype Visual =
    | NoData(text: string)
    | Chart(title: string, band: Band, timeline: seq<Segment>, status: string, usedPct: int, left: string)

  /** createTimelineVisual. */
  method CreateTimelineVisual(title: string, usedPct: Option<int>, timeRemaining: Option<string>,
                              totalDuration: real, elapsedUnits: real) returns (v: Visual)
    requires totalDuration > 0.0
    ensures usedPct.None? ==> v == NoData(title + ": No data")
    ensures usedPct.Some? ==>
      var pct := ElapsedPercent(elapsedUnits, totalDuration);
      var pacing := pct - usedPct.value;
      && v.Chart? && v.title == title && v.usedPct == usedPct.value
      && v.band == BandOf(pacing) && v.status == StatusText(pacing)
      && v.left == LeftText(timeRemaining)
      && |v.timeline| == SegmentCount
      && forall i :: 0 <= i < SegmentCount ==> v.timeline[i] == SegmentAt(i, Marker(pct), Marker(usedPct.value))
  {
    if usedPct.None? {
      return NoData(title + ": No data");
    }
    var used := usedPct.value;
    var timeElapsedPct := ElapsedPercent(elapsedUnits, totalDuration);
    var pacing := timeElapsedPct - used;
    var timeMarker := Marker(timeElapsedPct);
    var usageMarker := Marker(used);
    var timeline: seq<Segment> := [];
    var i := 0;
    while i < SegmentCount
      invariant 0 <= i <= SegmentCount
      invariant |timeline| == i
      invariant forall k :: 0 <= k < i ==> timeline[k] == SegmentAt(k, timeMarker, usageMarker)
    {
      if i == timeMarker && i == usageMarker {
        timeline := timeline + [Both];
      } else if i == timeMarker {
        timeline := timeline + [TimeCursor];
      } else if i < usageMarker {
        timeline := timeline + [Used];
      } else {
        timeline := timeline + [Available];
      }
      i := i + 1;
    }
    v := Chart(title, BandOf(pacing), timeline, StatusText(pacing), used, LeftText(timeRemaining));
  }

  /** A percentage within 0..100 points at a segment within 0..24 (24 is past the last one). */
  lemma MarkerRange(pct: int)
    requires 0 <= pct <= 100
    ensures 0 <= Marker(pct) <= SegmentCount
  {
    RoundBounds(pct as real / 100.0 * SegmentCount as real, 0, SegmentCount);
  }

  lemma MarkerMonotone(p: int, q: int)
    requires p <= q
    ensures Marker(p) <= Marker(q)
  {
  }

  /** How many of the first `n` segments show a given glyph. */
  function CountSegment(timeMarker: int, usageMarker: int, n: nat, s: Segment): nat {
    if n == 0 then 0
    else CountSegment(timeMarker, usageMarker, n - 1, s) + (if SegmentAt(n - 1, timeMarker, usageMarker) == s then 1 else 0)
  }

  function Clamp(x: int, lo: int, hi: int): int {
    if x < lo then lo else if x > hi then hi else x
  }

  /**
   * The bar is filled up to the usage marker, except where the time cursor sits:
   * of the first `n` segments, min(n, usageMarker) are filled, one fewer when the cursor is
   * among them.
   */
  lemma {:induction false} UsedSegmentCount(t: int, u: int, n: nat)
    ensures CountSegment(t, u, n, Used) == Clamp(u, 0, n) - (if 0 <= t < Clamp(u, 0, n) then 1 else 0)
  {
    if n > 0 {
      UsedSegmentCount(t, u, n - 1);
    }
  }

  /** The time cursor (alone or combined) shows exactly once when its marker is on the bar. */
  lemma {:induction false} CursorCount(t: int, u: int, n: nat)
    ensures CountSegment(t, u, n, TimeCursor) + CountSegment(t, u, n, Both)
         == if 0 <= t < n then 1 else 0
  {
    if n > 0 {
      CursorCount(t, u, n - 1);
    }
  }

  // ---------------------------------------------------------------------------------------
  // Bands
  // ---------------------------------------------------------------------------------------

  function BandRank(b: Band): nat {
    match b
    case FarBehind => 0
    case Behind => 1
    case OnPace => 2
    case Ahead => 3
    case FarAhead => 4
  }

  /** A larger pacing value never lands in a lower band. */
  lemma BandMonotone(p: int, q: int)
    requires p <= q
    ensures BandRank(BandOf(p)) <= BandRank(BandOf(q))
  {
  }

  // ---------------------------------------------------------------------------------------
  // Remaining time text
  // ---------------------------------------------------------------------------------------

  datatype TimeLeft = Unknown | Minutes(m: int) | Hours(h: int) | DaysHours(d: int, h: int)

  /** formatTimeRemaining, before the numbers are turned into text. */
  function FormatTimeRemaining(hours: Option<real>): (r: TimeLeft)
    ensures hours.None? <==> r == Unknown
    ensures r.Minutes? ==> hours.value < 1.0 && -0.5 < r.m as real - hours.value * 60.0 <= 0.5
    ensures r.Hours? ==> 1.0 <= hours.value < 24.0 && 1 <= r.h <= 24
    ensures r.Hours? ==> -0.5 < r.h as real - hours.value <= 0.5
    ensures r.DaysHours? ==> 24.0 <= hours.value && r.d >= 1 && 0 <= r.h <= 24
    ensures r.DaysHours? ==> r.d as real <= hours.value / 24.0 < r.d as real + 1.0
    ensures r.DaysHours? ==> -0.5 < r.h as real - (hours.value - 24.0 * r.d as real) <= 0.5
  {
    if hours.None? then Unknown
    else
      var h := hours.value;
      RoundNear(h * 60.0);
      RoundNear(h);
      if h < 1.0 then Minutes(Round(h * 60.0))
      else if h < 24.0 then Hours(Round(h))
      else
        var days := (h / 24.0).Floor;
        RoundNear(h - 24.0 * days as real);
        DaysHours(days, Round(h - 24.0 * days as real))
  }

  function TimeLeftText(t: TimeLeft): string {
    match t
    case Unknown => "?"
    case Minutes(m) => IntToString(m) + "m"
    case Hours(h) => IntToString(h) + "h"
    case DaysHours(d, h) => IntToString(d) + "d " + IntToString(h) + "h"
  }

  /** The days and hours shown add up to the real remaining time, to within half an hour. */
  lemma DaysHoursApproximates(hours: real)
    requires hours >= 24.0
    ensures var r := FormatTimeRemaining(Some(hours));
            -0.5 < (24 * r.d + r.h) as real - hours <= 0.5
  {
    var days := (hours / 24.0).Floor;
    RoundNear(hours - 24.0 * days as real);
  }

  /** 47.75 hours reads "1d 24h": the rounded hours can reach 24. */
  lemma TwentyFourHoursShown()
    ensures FormatTimeRemaining(Some(47.75)) == DaysHours(1, 24)
  {
  }

  // ---------------------------------------------------------------------------------------
  // Week calendar
  // ---------------------------------------------------------------------------------------

  /** The day letters S M T W T F S, Sunday first. */
  function DayLetter(d: Weekday): char {
    "SMTWTFS"[d]
  }

  /** Today "[X]", the reset day "(X)", a day before the reset " X ", any other day a dot. */
  datatype CalendarCell = Today(letter: char) | ResetMark(letter: char) | UntilReset(letter: char) | Placeholder

  function CellAt(i: Weekday, currentDay: Weekday, resetDay: int): (cell: CalendarCell)
    ensures cell.Today? <==> i == currentDay
    ensures cell.ResetMark? <==> i != currentDay && i == resetDay
    ensures !cell.Placeholder? ==> cell.letter == "SMTWTFS"[i]
  {
    if i == currentDay then Today(DayLetter(i))
    else if i == resetDay then ResetMark(DayLetter(i))
    else if (resetDay > currentDay && i > currentDay && i < resetDay)
         || (resetDay < currentDay && (i > currentDay || i < resetDay)) then UntilReset(DayLetter(i))
    else Placeholder
  }

  /** The strip for a given reset day (-1 for none). */
  method CalendarStrip(currentDay: Weekday, resetDay: int) returns (cells: seq<CalendarCell>)
    ensures |cells| == 7
    ensures forall i: Weekday :: cells[i] == CellAt(i, currentDay, resetDay)
  {
    cells := [];
    var i := 0;
    while i < 7
      invariant 0 <= i <= 7
      invariant |cells| == i
      invariant forall k: Weekday :: k < i ==> cells[k] == CellAt(k, currentDay, resetDay)
    {
      if i == currentDay {
        cells := cells + [Today(DayLetter(i))];
      } else if i == resetDay {
        cells := cells + [ResetMark(DayLetter(i))];
      } else if (resetDay > currentDay && i > currentDay && i < resetDay)
             || (resetDay < currentDay && (i > currentDay || i < resetDay)) {
        cells := cells + [UntilReset(DayLetter(i))];
      } else {
        cells := cells + [Placeholder];
      }
      i := i + 1;
    }
  }

  /** How many days forward from `from` to `to`, going round the week. */
  function Forward(from: Weekday, to: Weekday): (d: nat)
    ensures d < 7 && (from + d) % 7 == to
  {
    (to - from + 7) % 7
  }

  /**
   * Away from today and the reset day, a day shows as "until reset" exactly when it lies
   * strictly between them going forward round the week; with the reset on today no day does.
   */
  lemma UntilResetIsForwardBetween(i: Weekday, currentDay: Weekday, resetDay: Weekday)
    requires i != currentDay && i != resetDay
    ensures CellAt(i, currentDay, resetDay).UntilReset?
        <==> 0 < Forward(currentDay, i) < Forward(currentDay, resetDay)
  {
    ForwardWithoutWrap(currentDay, i);
    ForwardWithoutWrap(currentDay, resetDay);
  }

  /** Counting forward wraps past Saturday exactly when the target comes earlier in the week. */
  lemma ForwardWithoutWrap(from: Weekday, to: Weekday)
    ensures Forward(from, to) == if to >= from then to - from else to - from + 7
  {
  }

  /** Today is always shown as today, even when it is also the reset day. */
  lemma TodayAlwaysShown(currentDay: Weekday, resetDay: int)
    ensures CellAt(currentDay, currentDay, resetDay) == Today(DayLetter(currentDay))
  {
  }

  /** Without a reset time every day after today shows bare and no day before it does. */
  lemma NoResetMarksLaterDays(i: Weekday, currentDay: Weekday)
    requires i != currentDay
    ensures CellAt(i, currentDay, -1) == if i > currentDay then UntilReset(DayLetter(i)) else Placeholder
  {
  }

  /** `(currentDay + Math.ceil(hoursUntilReset / 24)) % 7`, or -1 without a reset time. */
  function CeilResetDay(hours: Option<real>, currentDay: Weekday): (r: int)
    ensures hours.None? ==> r == -1
    ensures hours.Some? && hours.value > 0.0 ==> 0 <= r < 7
  {
    if hours.None? then -1
    else
      var daysUntil := Ceil(hours.value / 24.0);
      JsRem(currentDay + daysUntil, 7)
  }

  /** createWeekCalendar as written, marking the day `Math.ceil` of the hours lands on. */
  method CreateWeekCalendarAsWritten(hours: Option<real>, currentDay: Weekday) returns (cells: seq<CalendarCell>)
    ensures |cells| == 7
    ensures forall i: Weekday :: cells[i] == CellAt(i, currentDay, CeilResetDay(hours, currentDay))
  {
    cells := CalendarStrip(currentDay, CeilResetDay(hours, currentDay));
  }

  /**
   * At Monday 01:00 a reset "Mon 3:00 AM" is two hours away, on the same day, but the strip
   * marks Tuesday.
   */
  lemma CeilResetDayOffByOne()
    ensures ParseWeeklyResetTime(Some("Mon 3:00 AM"), Clock(1, 1, 0, 0, 0)) == Some(2.0)
    ensures CeilResetDay(Some(2.0), 1) == 2
  {
    MondayThreeAmHours();
    TwoHoursMarksNextDay();
  }

  lemma TwoHoursMarksNextDay()
    ensures CeilResetDay(Some(2.0), 1) == 2
  {
    var x := 2.0 / 24.0;
    assert 0.0 < x < 1.0;
    CeilBounds(x, 0, 1);
    CeilPositive(x);
    assert Ceil(x) == 1;
    assert JsRem(1 + 1, 7) == 2;
  }

  lemma MondayThreeAmHours()
    ensures ParseWeeklyResetTime(Some("Mon 3:00 AM"), Clock(1, 1, 0, 0, 0)) == Some(2.0)
  {
    MondayThreeAmText();
    WeeklyResetRoundTrip(1, 3, 0);
    assert MillisUntil(Clock(1, 1, 0, 0, 0), Target(1, 3, 0)) == 7200000;
  }

  lemma MondayThreeAmText()
    ensures WeeklyResetText(1, 3, 0) == "Mon 3:00 AM"
  {
    SmallNatToString(3);
    SmallNatToString(0);
    assert DayName(1) == "Mon";
    assert NatToString(Hour12(3)) == "3";
    assert Pad2(0) == "00";
  }

  /**
   * The reset's weekday: whole days from the start of today to the reset instant. The hours are
   * counted from now, so the time already gone today is added back before dividing by a day.
   */
  function ResetDay(hours: Option<real>, now: Clock): (r: int)
    ensures hours.None? ==> r == -1
    ensures hours.Some? && hours.value >= 0.0 ==> 0 <= r < 7
  {
    if hours.None? then -1
    else
      var msOfDay := MinuteOfDay(now) * 60000 + now.second * 1000 + now.milli;
      var days := ((msOfDay as real + hours.value * 3600000.0) / 86400000.0).Floor;
      JsRem(now.day + days, 7)
  }

  /** The corrected strip marks the weekday the reset text names. */
  lemma ResetDayIsTargetDay(resetsAt: Option<string>, now: Clock)
    requires ParseWeeklyTarget(resetsAt).Some?
    requires TargetMinuteOfDay(ParseWeeklyTarget(resetsAt).value) < 1440
    ensures ResetDay(ParseWeeklyResetTime(resetsAt, now), now) == ParseWeeklyTarget(resetsAt).value.day
  {
    var t := ParseWeeklyTarget(resetsAt).value;
    assert ParseWeeklyResetTime(resetsAt, now) == Some(HoursUntil(now, t));
    ResetDayAtHoursUntil(now, t);
  }

  lemma ResetDayAtHoursUntil(now: Clock, t: Target)
    requires TargetMinuteOfDay(t) < 1440
    ensures ResetDay(Some(HoursUntil(now, t)), now) == t.day
  {
    ReachedAtReset(now, t);
    ResetDayOfWholeDays(HoursUntil(now, t), now, DaysUntil(now, t), TargetMinuteOfDay(t));
    DaysUntilReachesTarget(now, t);
  }

  /** Now's time of day plus the hours until the reset lands on the reset's minute, `DaysUntil` days on. */
  lemma ReachedAtReset(now: Clock, t: Target)
    ensures (MinuteOfDay(now) * 60000 + now.second * 1000 + now.milli) as real + HoursUntil(now, t) * 3600000.0
         == (DaysUntil(now, t) * 86400000 + TargetMinuteOfDay(t) * 60000) as real
  {
    var ms := MillisUntil(now, t);
    HoursBackToMillis(ms);
  }

  lemma ResetDayOfWholeDays(h: real, now: Clock, days: int, minute: nat)
    requires minute < 1440
    requires (MinuteOfDay(now) * 60000 + now.second * 1000 + now.milli) as real + h * 3600000.0
          == (days * 86400000 + minute * 60000) as real
    ensures ResetDay(Some(h), now) == JsRem(now.day + days, 7)
  {
    var x := (MinuteOfDay(now) * 60000 + now.second * 1000 + now.milli) as real + h * 3600000.0;
    WholeDays(days, minute, x);
  }

  lemma HoursBackToMillis(ms: int)
    ensures (ms as real / 3600000.0) * 3600000.0 == ms as real
  {
  }

  lemma WholeDays(days: int, minute: nat, x: real)
    requires minute < 1440
    requires x == (days * 86400000 + minute * 60000) as real
    ensures (x / 86400000.0).Floor == days
  {
    assert x / 86400000.0 == days as real + (minute * 60000) as real / 86400000.0;
  }

  lemma DaysUntilReachesTarget(now: Clock, t: Target)
    ensures JsRem(now.day + DaysUntil(now, t), 7) == t.day
  {
  }

  /** createWeekCalendar with the reset day counted in whole days from midnight. */
  method CreateWeekCalendar(hours: Option<real>, now: Clock) returns (cells: seq<CalendarCell>)
    ensures |cells| == 7
    ensures forall i: Weekday :: cells[i] == CellAt(i, now.day, ResetDay(hours, now))
  {
    cells := CalendarStrip(now.day, ResetDay(hours, now));
  }
}
