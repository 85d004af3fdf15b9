/**
 * Parsing the two reset strings the usage page shows, and the hours until a weekly reset.
 *
 * The session reset text ("2h 15m", "4 hr 5 min") is read with the regular expressions
 * `/(\d+)\s*h/i` and `/(\d+)\s*m/i`; the weekly reset text ("Mon 3:00 AM") with
 * `/(\w{3})\s+(\d{1,2}):(\d{2})\s*(AM|PM)/i`. Both show-usage.tsx and menu-bar.tsx carry
 * identical copies of these parsers; this module models them once.
 *
 * Each regular expression is modelled by a function that decides whether it matches at a
 * given position (the patterns used here leave the backtracking engine no choice once the
 * start is fixed) and a search that returns the leftmost such position, as `String.match`
 * does.
 */
module ResetParsing {
  import opened Wrappers
  import opened Text

  // ---------------------------------------------------------------------------------------
  // Character runs
  // ---------------------------------------------------------------------------------------

  /** The end of the maximal run of digits starting at `i` (greedy `\d+` / `\d*`). */
  function DigitRunEnd(s: string, i: nat): (j: nat)
    requires i <= |s|
    ensures i <= j <= |s|
    ensures forall k :: i <= k < j ==> IsDigit(s[k])
    ensures j == |s| || !IsDigit(s[j])
    decreases |s| - i
  {
    if i < |s| && IsDigit(s[i]) then DigitRunEnd(s, i + 1) else i
  }

  /** The end of the maximal run of white space starting at `i` (greedy `\s*`). */
  function SpaceRunEnd(s: string, i: nat): (j: nat)
    requires i <= |s|
    ensures i <= j <= |s|
    ensures forall k :: i <= k < j ==> IsSpace(s[k])
    ensures j == |s| || !IsSpace(s[j])
    decreases |s| - i
  {
    if i < |s| && IsSpace(s[i]) then SpaceRunEnd(s, i + 1) else i
  }

  /** A run is determined by where it stops. */
  lemma {:induction false} DigitRunEndAt(s: string, i: nat, j: nat)
    requires i <= j <= |s|
    requires forall k :: i <= k < j ==> IsDigit(s[k])
    requires j == |s| || !IsDigit(s[j])
    ensures DigitRunEnd(s, i) == j
    decreases j - i
  {
    if i < j {
      DigitRunEndAt(s, i + 1, j);
    }
  }

  // ---------------------------------------------------------------------------------------
  // Session reset: /(\d+)\s*h/i and /(\d+)\s*m/i
  // ---------------------------------------------------------------------------------------

  /** `/(\d+)\s*u/i` matches at position `i` (`unit` is a lower-case letter). */
  predicate UnitMatchAt(s: string, i: nat, unit: char) {
    i < |s| && IsDigit(s[i]) &&
    var k := SpaceRunEnd(s, DigitRunEnd(s, i));
    k < |s| && LowerAscii(s[k]) == unit
  }

  /** The leftmost position at or after `from` where `/(\d+)\s*u/i` matches. */
  function FirstUnitMatch(s: string, unit: char, from: nat): (r: Option<nat>)
    requires from <= |s|
    ensures r.Some? ==> from <= r.value < |s| && UnitMatchAt(s, r.value, unit)
    ensures forall k :: from <= k < |s| && (r.None? || k < r.value) ==> !UnitMatchAt(s, k, unit)
    decreases |s| - from
  {
    if from == |s| then None
    else if UnitMatchAt(s, from, unit) then Some(from)
    else FirstUnitMatch(s, unit, from + 1)
  }

  /** No match of `/(\d+)\s*u/i` starts before `i`. */
  predicate FirstUnitAt(s: string, i: nat, unit: char) {
    forall k :: 0 <= k < i ==> !UnitMatchAt(s, k, unit)
  }

  /** The leftmost match of `/(\d+)\s*u/i` starts at `i` and its group reads as `v`. */
  predicate ReadsAt(s: string, unit: char, i: nat, v: nat) {
    i < |s| && UnitMatchAt(s, i, unit) && FirstUnitAt(s, i, unit)
    && v == DecimalValue(s[i..DigitRunEnd(s, i)])
  }

  /** `parseInt` of the group captured by the first match of `/(\d+)\s*u/i`, if any. */
  function UnitNumber(s: string, unit: char): (n: Option<nat>)
    ensures n.None? <==> FirstUnitAt(s, |s|, unit)
    ensures n.Some? ==> exists i :: ReadsAt(s, unit, i, n.value)
  {
    match FirstUnitMatch(s, unit, 0)
    case None => None
    case Some(i) =>
      var v := DecimalValue(s[i..DigitRunEnd(s, i)]);
      assert ReadsAt(s, unit, i, v);
      Some(v)
  }

  /** A match may start one digit earlier within the same number. */
  lemma UnitMatchStep(s: string, k: nat, unit: char)
    requires k + 1 < |s|
    ensures IsDigit(s[k]) && IsDigit(s[k + 1]) ==> (UnitMatchAt(s, k, unit) <==> UnitMatchAt(s, k + 1, unit))
  {
  }

  /** The leftmost match starts a number, so the captured group is the whole number. */
  lemma FirstUnitMatchStartsRun(s: string, unit: char)
    requires FirstUnitMatch(s, unit, 0).Some?
    ensures var i := FirstUnitMatch(s, unit, 0).value; i == 0 || !IsDigit(s[i - 1])
  {
    var i := FirstUnitMatch(s, unit, 0).value;
    if i > 0 {
      UnitMatchStep(s, i - 1, unit);
    }
  }

  /** The first number followed by the unit letter, found at `i..j`, is what is read. */
  lemma UnitNumberFound(s: string, unit: char, i: nat, j: nat)
    requires i < j < |s|
    requires forall k :: i <= k < j ==> IsDigit(s[k])
    requires !IsDigit(s[j]) && !IsSpace(s[j]) && LowerAscii(s[j]) == unit
    requires forall k :: 0 <= k < i ==> !UnitMatchAt(s, k, unit)
    ensures UnitNumber(s, unit) == Some(DecimalValue(s[i..j]))
  {
    DigitRunEndAt(s, i, j);
    assert UnitMatchAt(s, i, unit);
  }

  /**
   * parseSessionResetTime: the minutes until the session resets, sixty per hour number and
   * one per minute number; absent for an absent or empty text and for a total of zero.
   */
  function ParseSessionResetTime(resetsIn: Option<string>): (r: Option<nat>)
    ensures r.Some? ==> r.value > 0
    ensures resetsIn == None || resetsIn == Some("") ==> r == None
  {
    if resetsIn.None? || resetsIn.value == "" then None
    else
      var s := resetsIn.value;
      var total := SessionMinutes(UnitNumber(s, 'h'), UnitNumber(s, 'm'));
      if total > 0 then Some(total) else None
  }

  /** Sixty minutes per hour number plus the minute number, an absent number counting 0. */
  function SessionMinutes(hours: Option<nat>, minutes: Option<nat>): nat {
    (if hours.Some? then hours.value * 60 else 0) + (if minutes.Some? then minutes.value else 0)
  }

  /** The text "<h>h <m>m". */
  function SessionResetText(h: nat, m: nat): string {
    NatToString(h) + "h " + NatToString(m) + "m"
  }

  /** Parsing "<h>h <m>m" gives back 60 h + m minutes whenever that is not zero. */
  lemma SessionResetRoundTrip(h: nat, m: nat)
    requires 60 * h + m > 0
    ensures ParseSessionResetTime(Some(SessionResetText(h, m))) == Some(60 * h + m)
  {
    var s := SessionResetText(h, m);
    HoursRead(h, m);
    MinutesRead(h, m);
    ParseFromNumbers(s, h, m);
  }

  lemma ParseFromNumbers(s: string, h: nat, m: nat)
    requires s != "" && 60 * h + m > 0
    requires UnitNumber(s, 'h') == Some(h) && UnitNumber(s, 'm') == Some(m)
    ensures ParseSessionResetTime(Some(s)) == Some(60 * h + m)
  {
    assert SessionMinutes(UnitNumber(s, 'h'), UnitNumber(s, 'm')) == 60 * h + m;
  }

  /** In "<h>h <m>m" the hour number is the first one followed by an `h`. */
  lemma HoursRead(h: nat, m: nat)
    ensures UnitNumber(SessionResetText(h, m), 'h') == Some(h)
  {
    var hs, ms := NatToString(h), NatToString(m);
    var s := SessionResetText(h, m);
    var a := |hs|;
    assert s == hs + ("h " + ms + "m");
    assert s[a] == 'h';
    assert s[0..a] == hs;
    UnitNumberFound(s, 'h', 0, a);
    NatToStringRoundTrip(h);
  }

  /** In "<h>h <m>m" the minute number is the first one followed by an `m`. */
  lemma MinutesRead(h: nat, m: nat)
    ensures UnitNumber(SessionResetText(h, m), 'm') == Some(m)
  {
    var hs, ms := NatToString(h), NatToString(m);
    var s := SessionResetText(h, m);
    var a := |hs|;
    assert s == (hs + "h ") + ms + "m";
    assert s[a] == 'h' && s[a + 1] == ' ';
    assert s[a + 2..a + 2 + |ms|] == ms;
    assert s[a + 2 + |ms|] == 'm';
    forall k | 0 <= k < a + 2
      ensures !UnitMatchAt(s, k, 'm')
    {
      if k < a {
        DigitRunEndAt(s, k, a);
      }
    }
    UnitNumberFound(s, 'm', a + 2, a + 2 + |ms|);
    NatToStringRoundTrip(m);
  }

  /** The worked examples: "2h 15m", "45m", "3h", the empty text, and "0h 0m" which reads as absent. */
  lemma SessionResetExamples()
    ensures ParseSessionResetTime(Some("2h 15m")) == Some(135)
    ensures ParseSessionResetTime(Some("45m")) == Some(45)
    ensures ParseSessionResetTime(Some("3h")) == Some(180)
    ensures ParseSessionResetTime(Some("")) == None
    ensures ParseSessionResetTime(Some("0h 0m")) == None
  {
    assert NatToString(2) == "2";
    assert NatToString(15) == "15";
    assert SessionResetText(2, 15) == "2h 15m";
    SessionResetRoundTrip(2, 15);
    MinutesOnlyRead();
    HoursOnlyRead();
    ZeroUnitsRead();
  }

  lemma MinutesOnlyRead()
    ensures ParseSessionResetTime(Some("45m")) == Some(45)
  {
    MinutesOnlyUnits();
    ParseFromUnits("45m", None, Some(45));
  }

  lemma MinutesOnlyUnits()
    ensures UnitNumber("45m", 'm') == Some(45)
    ensures UnitNumber("45m", 'h') == None
  {
    var s := "45m";
    UnitNumberFound(s, 'm', 0, 2);
    NatToStringRoundTrip(45);
    assert s[0..2] == "45";
    assert !UnitMatchAt(s, 0, 'h') by { DigitRunEndAt(s, 0, 2); }
  }

  lemma HoursOnlyRead()
    ensures ParseSessionResetTime(Some("3h")) == Some(180)
  {
    HoursOnlyUnits();
    ParseFromUnits("3h", Some(3), None);
  }

  lemma HoursOnlyUnits()
    ensures UnitNumber("3h", 'h') == Some(3)
    ensures UnitNumber("3h", 'm') == None
  {
    var s := "3h";
    UnitNumberFound(s, 'h', 0, 1);
    assert s[0..1] == "3";
    assert !UnitMatchAt(s, 0, 'm') by { DigitRunEndAt(s, 0, 1); }
  }

  lemma ZeroUnitsRead()
    ensures ParseSessionResetTime(Some("0h 0m")) == None
  {
    assert NatToString(0) == "0";
    assert SessionResetText(0, 0) == "0h 0m";
    HoursRead(0, 0);
    MinutesRead(0, 0);
    ZeroUnitsReadAsAbsent("0h 0m");
  }

  /** The parse of a non-empty text, given the hour and minute numbers read from it. */
  lemma ParseFromUnits(s: string, hours: Option<nat>, minutes: Option<nat>)
    requires s != "" && UnitNumber(s, 'h') == hours && UnitNumber(s, 'm') == minutes
    ensures ParseSessionResetTime(Some(s))
         == if SessionMinutes(hours, minutes) > 0 then Some(SessionMinutes(hours, minutes)) else None
  {
  }

  /**
   * Hour and minute numbers that are absent or zero read as no reset time at all, so a
   * session text "0h 0m" suppresses the session pacing just like a missing one.
   */
  lemma ZeroUnitsReadAsAbsent(s: string)
    requires UnitNumber(s, 'h') == None || UnitNumber(s, 'h') == Some(0)
    requires UnitNumber(s, 'm') == None || UnitNumber(s, 'm') == Some(0)
    ensures ParseSessionResetTime(Some(s)) == None
  {
  }

  // ---------------------------------------------------------------------------------------
  // Weekly reset: /(\w{3})\s+(\d{1,2}):(\d{2})\s*(AM|PM)/i
  // ---------------------------------------------------------------------------------------

  /** The four groups of a weekly-reset match. */
  datatype WeeklyMatch = WeeklyMatch(dayText: string, hourText: string, minuteText: string, meridiem: string)

  predicate IsMeridiemStart(c: char) {
    UpperAscii(c) == 'A' || UpperAscii(c) == 'P'
  }

  /** The weekly-reset pattern matched at position `i`, with its groups. */
  function WeeklyMatchAt(s: string, i: nat): (r: Option<WeeklyMatch>)
    ensures r.Some? ==> |r.value.dayText| == 3
    ensures r.Some? ==> 1 <= |r.value.hourText| <= 2 && AllDigits(r.value.hourText)
    ensures r.Some? ==> |r.value.minuteText| == 2 && AllDigits(r.value.minuteText)
    ensures r.Some? ==> |r.value.meridiem| == 2
  {
    if i + 3 > |s| || !(IsWordChar(s[i]) && IsWordChar(s[i + 1]) && IsWordChar(s[i + 2])) then None
    else
      var j := SpaceRunEnd(s, i + 3);
      var hourEnd :=
        if j + 2 < |s| && IsDigit(s[j]) && IsDigit(s[j + 1]) && s[j + 2] == ':' then j + 2
        else if j + 1 < |s| && IsDigit(s[j]) && s[j + 1] == ':' then j + 1
        else j;
      if j == i + 3 || hourEnd == j then None
      else
        var p := hourEnd + 1;
        if p + 2 > |s| || !IsDigit(s[p]) || !IsDigit(s[p + 1]) then None
        else
          var q := SpaceRunEnd(s, p + 2);
          if q + 2 > |s| || !IsMeridiemStart(s[q]) || UpperAscii(s[q + 1]) != 'M' then None
          else
            DigitSlice(s, j, hourEnd);
            DigitSlice(s, p, p + 2);
            Some(WeeklyMatch(s[i..i + 3], s[j..hourEnd], s[p..p + 2], s[q..q + 2]))
  }

  lemma DigitSlice(s: string, a: nat, b: nat)
    requires a <= b <= |s|
    requires forall k :: a <= k < b ==> IsDigit(s[k])
    ensures AllDigits(s[a..b])
  {
    assert forall k :: 0 <= k < b - a ==> s[a..b][k] == s[a + k];
  }

  /** The leftmost position at or after `from` where the weekly-reset pattern matches. */
  function FirstWeeklyMatch(s: string, from: nat): (r: Option<nat>)
    requires from <= |s|
    ensures r.Some? ==> from <= r.value < |s| && WeeklyMatchAt(s, r.value).Some?
    ensures forall k :: from <= k < |s| && (r.None? || k < r.value) ==> WeeklyMatchAt(s, k).None?
    decreases |s| - from
  {
    if from == |s| then None
    else if WeeklyMatchAt(s, from).Some? then Some(from)
    else FirstWeeklyMatch(s, from + 1)
  }

  type Weekday = d: int | 0 <= d < 7
  type HourOfDay = h: int | 0 <= h < 24
  type Sixty = m: int | 0 <= m < 60
  type Millis = ms: int | 0 <= ms < 1000

  /** The `days` table: exactly the keys Sun..Sat, case-sensitive. */
  function DayIndex(dayText: string): (r: Option<Weekday>)
    ensures r.Some? <==> dayText in {"Sun", "Mon", "Tue", "Wed", "Thu", "Fri", "Sat"}
  {
    if dayText == "Sun" then Some(0)
    else if dayText == "Mon" then Some(1)
    else if dayText == "Tue" then Some(2)
    else if dayText == "Wed" then Some(3)
    else if dayText == "Thu" then Some(4)
    else if dayText == "Fri" then Some(5)
    else if dayText == "Sat" then Some(6)
    else None
  }

  function DayName(d: Weekday): (name: string)
    ensures DayIndex(name) == Some(d)
  {
    ["Sun", "Mon", "Tue", "Wed", "Thu", "Fri", "Sat"][d]
  }

  /** `ampm.toUpperCase() === "PM"`. */
  predicate IsPm(meridiem: string) {
    |meridiem| == 2 && UpperAscii(meridiem[0]) == 'P' && UpperAscii(meridiem[1]) == 'M'
  }

  /** `ampm.toUpperCase() === "AM"`. */
  predicate IsAm(meridiem: string) {
    |meridiem| == 2 && UpperAscii(meridiem[0]) == 'A' && UpperAscii(meridiem[1]) == 'M'
  }

  /** The 12-hour clock reading as a 24-hour hour. */
  function To24Hour(hour: nat, meridiem: string): (h: nat)
    ensures 1 <= hour <= 12 && (IsAm(meridiem) || IsPm(meridiem)) ==>
      h < 24 && h % 12 == hour % 12 && (h >= 12 <==> IsPm(meridiem))
  {
    if IsPm(meridiem) && hour != 12 then hour + 12
    else if IsAm(meridiem) && hour == 12 then 0
    else hour
  }

  /** 12 AM is hour 0, 12 PM hour 12, other PM hours are shifted by 12, other AM hours kept. */
  lemma To24HourCases(hour: nat, meridiem: string)
    requires 1 <= hour <= 12
    requires IsAm(meridiem) || IsPm(meridiem)
    ensures IsAm(meridiem) ==> To24Hour(hour, meridiem) == (if hour == 12 then 0 else hour)
    ensures IsPm(meridiem) ==> To24Hour(hour, meridiem) == (if hour == 12 then 12 else hour + 12)
    ensures 0 <= To24Hour(hour, meridiem) < 24
  {
  }

  /** The weekday, hour and minute a weekly reset text names. */
  datatype Target = Target(day: Weekday, hour: nat, minute: nat)

  function TargetMinuteOfDay(t: Target): nat {
    t.hour * 60 + t.minute
  }

  /** The weekly reset text parsed, before the clock is consulted. */
  function ParseWeeklyTarget(resetsAt: Option<string>): Option<Target> {
    if resetsAt.None? || resetsAt.value == "" then None
    else
      var s := resetsAt.value;
      match FirstWeeklyMatch(s, 0)
      case None => None
      case Some(i) =>
        var m := WeeklyMatchAt(s, i).value;
        match DayIndex(m.dayText)
        case None => None
        case Some(d) =>
          Some(Target(d, To24Hour(DecimalValue(m.hourText), m.meridiem), DecimalValue(m.minuteText)))
  }

  /** The local time the caller reads from its clock. */
  datatype Clock = Clock(day: Weekday, hour: HourOfDay, minute: Sixty, second: Sixty, milli: Millis)

  function MinuteOfDay(c: Clock): nat {
    c.hour * 60 + c.minute
  }

  /** Days from today to the reset's weekday; a reset at or before now today is next week's. */
  function DaysUntil(now: Clock, t: Target): (d: nat)
    ensures d <= 7
  {
    var diff := t.day - now.day;
    var days := if diff < 0 then diff + 7 else diff;
    if days == 0 && MinuteOfDay(now) >= TargetMinuteOfDay(t) then 7 else days
  }

  /**
   * Milliseconds from now to the reset: the date moved on by `DaysUntil` days and the time of
   * day set to the target's hour and minute with seconds and milliseconds zeroed.
   */
  function MillisUntil(now: Clock, t: Target): (ms: int)
    ensures TargetMinuteOfDay(t) < 1440 ==>
      var at := WeekMillis(now) + ms;
      at == TargetWeekMillis(t) || at == TargetWeekMillis(t) + 7 * 86400000
  {
    DaysUntil(now, t) * 86400000 + TargetMinuteOfDay(t) * 60000
      - (MinuteOfDay(now) * 60000 + now.second * 1000 + now.milli)
  }

  /** Milliseconds since the start of the week (Sunday midnight) on the clock. */
  function WeekMillis(c: Clock): nat {
    c.day * 86400000 + MinuteOfDay(c) * 60000 + c.second * 1000 + c.milli
  }

  /** Milliseconds since the start of the week at which the target falls. */
  function TargetWeekMillis(t: Target): nat {
    t.day * 86400000 + TargetMinuteOfDay(t) * 60000
  }

  /** The hours until the reset: positive, and at most a week for a time on the clock face. */
  function HoursUntil(now: Clock, t: Target): (h: real)
    ensures h > 0.0
    ensures TargetMinuteOfDay(t) < 1440 ==> h <= 168.0
  {
    MillisUntilPositive(now, t);
    if TargetMinuteOfDay(t) < 1440 then
      MillisUntilAtMostWeek(now, t);
      MillisUntil(now, t) as real / 3600000.0
    else
      MillisUntil(now, t) as real / 3600000.0
  }

  /** parseWeeklyResetTime / parseResetTime: the hours until the weekly reset, if the text parses. */
  function ParseWeeklyResetTime(resetsAt: Option<string>, now: Clock): (r: Option<real>)
    ensures r.Some? <==> ParseWeeklyTarget(resetsAt).Some?
  {
    match ParseWeeklyTarget(resetsAt)
    case None => None
    case Some(t) => Some(HoursUntil(now, t))
  }

  /** The reset is always in the future. */
  lemma MillisUntilPositive(now: Clock, t: Target)
    ensures MillisUntil(now, t) > 0
  {
  }

  /** For a time of day on the clock face, the reset is at most one week away. */
  lemma MillisUntilAtMostWeek(now: Clock, t: Target)
    requires TargetMinuteOfDay(t) < 1440
    ensures MillisUntil(now, t) <= 7 * 86400000
  {
  }

  /** Exactly one week away only when now is the reset's weekday, minute, and a whole minute. */
  lemma MillisUntilFullWeek(now: Clock, t: Target)
    requires TargetMinuteOfDay(t) < 1440
    ensures MillisUntil(now, t) == 7 * 86400000
        <==> now.day == t.day && MinuteOfDay(now) == TargetMinuteOfDay(t) && now.second == 0 && now.milli == 0
  {
  }

  /** The hours until a parsed weekly reset lie in (0, 168]. */
  lemma WeeklyResetHoursRange(resetsAt: Option<string>, now: Clock)
    requires ParseWeeklyTarget(resetsAt).Some?
    requires TargetMinuteOfDay(ParseWeeklyTarget(resetsAt).value) < 1440
    ensures 0.0 < ParseWeeklyResetTime(resetsAt, now).value <= 168.0
  {
    var t := ParseWeeklyTarget(resetsAt).value;
    MillisUntilPositive(now, t);
    MillisUntilAtMostWeek(now, t);
  }

  // ---------------------------------------------------------------------------------------
  // Reading back a rendered weekly reset time
  // ---------------------------------------------------------------------------------------

  /** The hour on a 12-hour clock face. */
  function Hour12(hour: HourOfDay): (h: nat)
    ensures 1 <= h <= 12
    ensures |NatToString(h)| <= 2
  {
    SmallNatToString(if hour % 12 == 0 then 12 else hour % 12);
    if hour % 12 == 0 then 12 else hour % 12
  }

  /** Two-digit minutes, as "3:05". */
  function Pad2(n: nat): (r: string)
    requires n < 100
    ensures |r| == 2 && AllDigits(r)
  {
    SmallNatToString(n);
    if n < 10 then "0" + NatToString(n) else NatToString(n)
  }

  /** One- and two-digit numbers render as one or two digit characters. */
  lemma SmallNatToString(n: nat)
    requires n < 100
    ensures n < 10 ==> NatToString(n) == [DigitChar(n)]
    ensures 10 <= n ==> NatToString(n) == [DigitChar(n / 10), DigitChar(n % 10)]
  {
    if 10 <= n {
      assert NatToString(n / 10) == [DigitChar(n / 10)];
    }
  }

  lemma Pad2Value(n: nat)
    requires n < 100
    ensures DecimalValue(Pad2(n)) == n
  {
    SmallNatToString(n);
    var r := Pad2(n);
    if n < 10 {
      assert r == ['0', DigitChar(n)];
    } else {
      assert r == [DigitChar(n / 10), DigitChar(n % 10)];
    }
    assert r[..1] == [r[0]] && r[..1][..0] == [];
    assert DecimalValue(r[..1]) == DigitValue(r[0]);
  }

  /** The 12-hour face and its meridiem give back the hour of the day. */
  lemma Hour12To24(hour: HourOfDay)
    ensures To24Hour(Hour12(hour), if hour >= 12 then "PM" else "AM") == hour
  {
  }

  /** A weekly reset time written as the usage page writes it, e.g. "Mon 3:05 PM". */
  function WeeklyResetText(day: Weekday, hour: HourOfDay, minute: Sixty): string {
    DayName(day) + " " + NatToString(Hour12(hour)) + ":" + Pad2(minute) + " "
      + (if hour >= 12 then "PM" else "AM")
  }

  lemma DayNameIsWord(d: Weekday)
    ensures var n := DayName(d); |n| == 3 && IsWordChar(n[0]) && IsWordChar(n[1]) && IsWordChar(n[2])
  {
  }

  /** A text laid out as `<word> <hour>:<minutes> <meridiem>` matches at its start. */
  lemma WeeklyMatchOfParts(d: string, h: string, m: string, r: string)
    requires |d| == 3 && IsWordChar(d[0]) && IsWordChar(d[1]) && IsWordChar(d[2])
    requires 1 <= |h| <= 2 && AllDigits(h)
    requires |m| == 2 && AllDigits(m)
    requires |r| == 2 && IsMeridiemStart(r[0]) && UpperAscii(r[1]) == 'M'
    ensures WeeklyMatchAt(d + " " + h + ":" + m + " " + r, 0) == Some(WeeklyMatch(d, h, m, r))
  {
    var s := d + " " + h + ":" + m + " " + r;
    var a := |h|;
    assert |s| == 10 + a;
    assert s[..3] == d && s[3] == ' ';
    assert s[4..4 + a] == h && s[4 + a] == ':';
    assert s[5 + a..7 + a] == m && s[7 + a] == ' ';
    assert s[8 + a..10 + a] == r;
    WeeklyMatchOfLayout(s, a);
  }

  /** The pattern read off a text whose fields sit at the positions the layout gives them. */
  lemma WeeklyMatchOfLayout(s: string, a: nat)
    requires 1 <= a <= 2 && |s| == 10 + a
    requires IsWordChar(s[0]) && IsWordChar(s[1]) && IsWordChar(s[2]) && s[3] == ' '
    requires AllDigits(s[4..4 + a]) && s[4 + a] == ':'
    requires AllDigits(s[5 + a..7 + a]) && s[7 + a] == ' '
    requires IsMeridiemStart(s[8 + a]) && UpperAscii(s[9 + a]) == 'M'
    ensures WeeklyMatchAt(s, 0) == Some(WeeklyMatch(s[..3], s[4..4 + a], s[5 + a..7 + a], s[8 + a..10 + a]))
  {
    assert s[4..4 + a][0] == s[4];
    assert s[5 + a..7 + a][0] == s[5 + a] && s[5 + a..7 + a][1] == s[6 + a];
    assert !IsSpace(s[4]) && !IsSpace(s[8 + a]);
    assert SpaceRunEnd(s, 3) == 4;
    if a == 2 {
      assert s[4..6][1] == s[5];
    }
    assert SpaceRunEnd(s, 7 + a) == 8 + a;
  }

  lemma WeeklyResetTextMatches(day: Weekday, hour: HourOfDay, minute: Sixty)
    ensures WeeklyMatchAt(WeeklyResetText(day, hour, minute), 0)
         == Some(WeeklyMatch(DayName(day), NatToString(Hour12(hour)), Pad2(minute),
                             if hour >= 12 then "PM" else "AM"))
  {
    DayNameIsWord(day);
    WeeklyMatchOfParts(DayName(day), NatToString(Hour12(hour)), Pad2(minute),
                       if hour >= 12 then "PM" else "AM");
  }

  /** Parsing a rendered weekly reset time gives back its weekday, hour and minute. */
  lemma WeeklyResetRoundTrip(day: Weekday, hour: HourOfDay, minute: Sixty)
    ensures ParseWeeklyTarget(Some(WeeklyResetText(day, hour, minute))) == Some(Target(day, hour, minute))
  {
    var s := WeeklyResetText(day, hour, minute);
    WeeklyResetTextMatches(day, hour, minute);
    assert FirstWeeklyMatch(s, 0) == Some(0);
    var m := WeeklyMatchAt(s, 0).value;
    assert DayIndex(m.dayText) == Some(day);
    NatToStringRoundTrip(Hour12(hour));
    Hour12To24(hour);
    assert To24Hour(DecimalValue(m.hourText), m.meridiem) == hour;
    Pad2Value(minute);
  }

  /** "Wed 10:00 AM" read at Wednesday 10:00 is a full week away; read at 09:00, one hour. */
  lemma WeeklyResetExamples()
    ensures ParseWeeklyResetTime(Some("Wed 10:00 AM"), Clock(3, 10, 0, 0, 0)) == Some(168.0)
    ensures ParseWeeklyResetTime(Some("Wed 10:00 AM"), Clock(3, 9, 0, 0, 0)) == Some(1.0)
  {
    WednesdayTenRead();
    var t := Target(3, 10, 0);
    HoursAtSameMinute(t);
    HoursAtOneHourBefore(t);
  }

  lemma HoursAtSameMinute(t: Target)
    requires t == Target(3, 10, 0)
    ensures HoursUntil(Clock(3, 10, 0, 0, 0), t) == 168.0
  {
    assert MillisUntil(Clock(3, 10, 0, 0, 0), t) == 7 * 86400000;
  }

  lemma HoursAtOneHourBefore(t: Target)
    requires t == Target(3, 10, 0)
    ensures HoursUntil(Clock(3, 9, 0, 0, 0), t) == 1.0
  {
    assert MillisUntil(Clock(3, 9, 0, 0, 0), t) == 3600000;
  }

  lemma WednesdayTenRead()
    ensures ParseWeeklyTarget(Some("Wed 10:00 AM")) == Some(Target(3, 10, 0))
  {
    SmallNatToString(10);
    SmallNatToString(0);
    assert DayName(3) == "Wed";
    assert NatToString(Hour12(10)) == "10";
    assert Pad2(0) == "00";
    assert WeeklyResetText(3, 10, 0) == "Wed 10:00 AM";
    WeeklyResetRoundTrip(3, 10, 0);
  }
}
