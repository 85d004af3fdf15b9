/**
 * The menu-bar item of the Claude usage extension: the title, the percentages and the
 * three-way pacing labels for the session and the two weekly quotas, with the "Resets …"
 * fallback subtitles.
 *
 * Its copies of the session and weekly reset parsers are the ones in ResetParsing.
 */
module MenuBar {
  import opened Wrappers
  import opened Numeric
  import opened Text
  import opened ResetParsing
  import ShowUsage

  /** One quota as the usage page reports it. */
  datatype Quota = Quota(usedPercentage: Option<int>, resetText: Option<string>)

  datatype Usage = Usage(currentSession: Quota, allModels: Quota, sonnet: Quota, error: Option<string>)

  datatype Pacing = NoPacing | Ahead(percent: nat) | Behind(percent: nat) | OnSchedule

  /** The sign of the rounded difference picks the label. */
  function PacingOf(diff: int): (p: Pacing)
    ensures p.Ahead? <==> diff > 0
    ensures p.Behind? <==> diff < 0
    ensures p.Ahead? ==> p.percent == diff
    ensures p.Behind? ==> p.percent == -diff
    ensures p != NoPacing
  {
    if diff > 0 then Ahead(diff) else if diff < 0 then Behind(-diff) else OnSchedule
  }

  function PacingText(p: Pacing): (s: string)
    ensures s == "" <==> p == NoPacing
  {
    match p
    case NoPacing => ""
    case Ahead(n) => NatToString(n) + "% ahead"
    case Behind(n) => NatToString(n) + "% behind"
    case OnSchedule => "On schedule"
  }

  /** `Math.round(elapsed% - used)` for a window of `total` units with `remaining` left. */
  function WindowDiff(total: real, remaining: real, used: int): int
    requires total > 0.0
  {
    Round((total - remaining) / total * 100.0 - used as real)
  }

  /** calculateSessionPacing. */
  function CalculateSessionPacing(usedPercentage: Option<int>, resetsIn: Option<string>): (p: Pacing)
    ensures p == NoPacing <==> usedPercentage.None? || ParseSessionResetTime(resetsIn).None?
  {
    if usedPercentage.None? then NoPacing
    else match ParseSessionResetTime(resetsIn)
      case None => NoPacing
      case Some(m) => PacingOf(WindowDiff(ShowUsage.SessionTotalMinutes as real, m as real, usedPercentage.value))
  }

  /** calculatePacing: the same labelling over the 168-hour week. */
  function CalculatePacing(usedPercentage: Option<int>, resetsAt: Option<string>, now: Clock): (p: Pacing)
    ensures p == NoPacing <==> usedPercentage.None? || ParseWeeklyTarget(resetsAt).None?
  {
    if usedPercentage.None? then NoPacing
    else match ParseWeeklyResetTime(resetsAt, now)
      case None => NoPacing
      case Some(h) => PacingOf(WindowDiff(ShowUsage.WeekTotalHours as real, h, usedPercentage.value))
  }

  /**
   * Rounding the difference gives the same number as rounding the elapsed percentage and then
   * subtracting the (whole) used percentage, as the detail view does.
   */
  lemma WindowDiffMatchesDetailView(total: real, remaining: real, used: int)
    requires total > 0.0
    ensures WindowDiff(total, remaining, used) == ShowUsage.ElapsedPercent(total - remaining, total) - used
  {
    RoundShift((total - remaining) / total * 100.0, used);
  }

  /** The menu bar's session label and the detail view's session band agree. */
  lemma SessionViewsAgree(used: int, resetsIn: Option<string>)
    requires ParseSessionResetTime(resetsIn).Some?
    ensures var m := ParseSessionResetTime(resetsIn).value;
            var pacing := ShowUsage.ElapsedPercent(ShowUsage.SessionElapsed(Some(m)) as real,
                                                   ShowUsage.SessionTotalMinutes as real) - used;
            CalculateSessionPacing(Some(used), resetsIn) == PacingOf(pacing)
  {
    var m := ParseSessionResetTime(resetsIn).value;
    WindowDiffMatchesDetailView(ShowUsage.SessionTotalMinutes as real, m as real, used);
    assert (ShowUsage.SessionTotalMinutes - m) as real == ShowUsage.SessionTotalMinutes as real - m as real;
  }

  /** The menu bar's weekly label and the detail view's band agree when both read the same reset text. */
  lemma WeeklyViewsAgree(used: int, resetsAt: Option<string>, now: Clock)
    requires ParseWeeklyTarget(resetsAt).Some?
    ensures var h := ParseWeeklyResetTime(resetsAt, now).value;
            var pacing := ShowUsage.ElapsedPercent(ShowUsage.WeekElapsed(Some(h)),
                                                   ShowUsage.WeekTotalHours as real) - used;
            CalculatePacing(Some(used), resetsAt, now) == PacingOf(pacing)
  {
    var t := ParseWeeklyTarget(resetsAt).value;
    var h := ParseWeeklyResetTime(resetsAt, now).value;
    assert h == HoursUntil(now, t);
    MillisUntilPositive(now, t);
    assert h > 0.0;
    assert ShowUsage.WeekElapsed(Some(h)) == ShowUsage.WeekTotalHours as real - h;
    assert CalculatePacing(Some(used), resetsAt, now) == PacingOf(WindowDiff(ShowUsage.WeekTotalHours as real, h, used));
    WindowDiffMatchesDetailView(ShowUsage.WeekTotalHours as real, h, used);
  }

  /**
   * The detail view paces its Weekly Sonnet band on the All Models reset time, the menu bar on
   * Sonnet's own; the two agree whenever both reset texts name the same weekday and time.
   */
  lemma SonnetViewsAgreeOnSharedReset(used: int, allModelsResetsAt: Option<string>,
                                      sonnetResetsAt: Option<string>, now: Clock)
    requires ParseWeeklyTarget(allModelsResetsAt).Some?
    requires ParseWeeklyTarget(sonnetResetsAt) == ParseWeeklyTarget(allModelsResetsAt)
    ensures var h := ParseWeeklyResetTime(allModelsResetsAt, now).value;
            var pacing := ShowUsage.ElapsedPercent(ShowUsage.WeekElapsed(Some(h)),
                                                   ShowUsage.WeekTotalHours as real) - used;
            CalculatePacing(Some(used), sonnetResetsAt, now) == PacingOf(pacing)
  {
    WeeklyViewsAgree(used, sonnetResetsAt, now);
  }

  /** The five bands refine the three labels. */
  lemma BandsRefineLabels(diff: int)
    ensures PacingOf(diff).Ahead? <==> ShowUsage.BandOf(diff) in {ShowUsage.FarAhead, ShowUsage.Ahead}
    ensures PacingOf(diff).Behind? <==> ShowUsage.BandOf(diff) in {ShowUsage.Behind, ShowUsage.FarBehind}
    ensures PacingOf(diff) == OnSchedule <==> ShowUsage.BandOf(diff) == ShowUsage.OnPace
  {
  }

  /** 50% used with 150 of 300 minutes left is on schedule; 30% used is 20% ahead, 70% is 20% behind. */
  lemma SessionPacingExamples()
    ensures CalculateSessionPacing(Some(50), Some("2h 30m")) == OnSchedule
    ensures CalculateSessionPacing(Some(30), Some("2h 30m")) == Ahead(20)
    ensures CalculateSessionPacing(Some(70), Some("2h 30m")) == Behind(20)
    ensures CalculateSessionPacing(None, Some("2h 30m")) == NoPacing
    ensures CalculateSessionPacing(Some(50), None) == NoPacing
  {
    TwoHoursThirty();
    HalfWindowPacing(50);
    HalfWindowPacing(30);
    HalfWindowPacing(70);
  }

  /** Half of the five-hour window left: the pacing is 50 minus the used percentage. */
  lemma HalfWindowPacing(used: int)
    requires ParseSessionResetTime(Some("2h 30m")) == Some(150)
    ensures CalculateSessionPacing(Some(used), Some("2h 30m")) == PacingOf(50 - used)
  {
    HalfWindowDiff(used);
  }

  lemma HalfWindowDiff(used: int)
    ensures WindowDiff(300.0, 150.0, used) == 50 - used
  {
    var x := (300.0 - 150.0) / 300.0 * 100.0 - used as real;
    assert x == 50.0 - used as real;
    RoundCharacterization(x, 50 - used);
  }

  lemma TwoHoursThirty()
    ensures ParseSessionResetTime(Some("2h 30m")) == Some(150)
  {
    assert NatToString(2) == "2";
    assert NatToString(30) == "30";
    assert SessionResetText(2, 30) == "2h 30m";
    SessionResetRoundTrip(2, 30);
  }

  /** getMenuBarTitle; the source reads the session of a usage it does not have unless loading. */
  function MenuBarTitle(isLoading: bool, usage: Option<Usage>): (t: string)
    requires isLoading || usage.Some?
    ensures isLoading ==> t == "C: ..."
    ensures !isLoading && usage.value.error.Some? && usage.value.error.value != "" ==> t == "C: !"
    ensures !isLoading && (usage.value.error.None? || usage.value.error.value == "") ==>
              t == "C: " + FormatPercentage(usage.value.currentSession.usedPercentage)
  {
    if isLoading then "C: ..."
    else if usage.value.error.Some? && usage.value.error.value != "" then "C: !"
    else match usage.value.currentSession.usedPercentage
      case Some(n) => "C: " + IntToString(n) + "%"
      case None => "C: —"
  }

  /** formatPercentage. */
  function FormatPercentage(value: Option<int>): (s: string)
    ensures value.None? <==> s == "—"
  {
    match value
    case None => "—"
    case Some(n) => IntToString(n) + "%"
  }

  /** Different values never read the same. */
  lemma FormatPercentageInjective(a: Option<int>, b: Option<int>)
    requires FormatPercentage(a) == FormatPercentage(b)
    ensures a == b
  {
    if a.Some? && b.Some? {
      var sa, sb := IntToString(a.value), IntToString(b.value);
      assert sa == FormatPercentage(a)[..|sa|];
      assert sb == FormatPercentage(b)[..|sb|];
      IntToStringInjective(a.value, b.value);
    }
  }

  /** The subtitle: the pacing label, or else "Resets …" when a reset text is present. */
  function Subtitle(pacing: Pacing, resetText: Option<string>, prefix: string): (s: Option<string>)
    ensures pacing != NoPacing ==> s == Some(PacingText(pacing))
    ensures pacing == NoPacing && resetText.Some? && resetText.value != "" ==> s == Some(prefix + resetText.value)
    ensures pacing == NoPacing && (resetText.None? || resetText.value == "") ==> s.None?
  {
    if PacingText(pacing) != "" then Some(PacingText(pacing))
    else if resetText.Some? && resetText.value != "" then Some(prefix + resetText.value)
    else None
  }

  datatype MenuLines = MenuLines(title: string, errorItem: Option<string>,
                                 session: string, sessionSubtitle: Option<string>,
                                 allModels: string, allModelsSubtitle: Option<string>,
                                 sonnet: string, sonnetSubtitle: Option<string>)

  /**
   * `${value}%` on a value that is not there: before the first fetch finishes, the percentage
   * read through `usage?.` is undefined, which is not null, so formatPercentage prints it.
   */
  const UndefinedPercentage := "undefined%"

  /**
   * The title, the error item and the three quota items with their subtitles; Sonnet is paced on
   * its own reset. `usage` is None on the first render, while the fetch is still loading: fetchUsage
   * sets a usage (an error usage when the script fails) before it clears the loading flag.
   */
  function MenuBarItems(isLoading: bool, usage: Option<Usage>, now: Clock): (m: MenuLines)
    requires isLoading || usage.Some?
    ensures m.title == MenuBarTitle(isLoading, usage)
    ensures m.errorItem.Some? <==> usage.Some? && usage.value.error.Some? && usage.value.error.value != ""
    ensures m.errorItem.Some? ==> m.errorItem.value == "Error: " + usage.value.error.value
    ensures usage.None? ==> && m.session == UndefinedPercentage + " used"
                            && m.allModels == "All Models: " + UndefinedPercentage
                            && m.sonnet == "Sonnet Only: " + UndefinedPercentage
                            && m.sessionSubtitle.None? && m.allModelsSubtitle.None? && m.sonnetSubtitle.None?
    ensures usage.Some? ==> m.session == FormatPercentage(usage.value.currentSession.usedPercentage) + " used"
    ensures usage.Some? ==> m.allModels == "All Models: " + FormatPercentage(usage.value.allModels.usedPercentage)
    ensures usage.Some? ==> m.sonnet == "Sonnet Only: " + FormatPercentage(usage.value.sonnet.usedPercentage)
    ensures usage.Some? ==>
              var s := usage.value.currentSession;
              m.sessionSubtitle == Subtitle(CalculateSessionPacing(s.usedPercentage, s.resetText), s.resetText, "Resets in ")
    ensures usage.Some? ==>
              var a := usage.value.allModels;
              m.allModelsSubtitle == Subtitle(CalculatePacing(a.usedPercentage, a.resetText, now), a.resetText, "Resets ")
    ensures usage.Some? ==>
              var o := usage.value.sonnet;
              m.sonnetSubtitle == Subtitle(CalculatePacing(o.usedPercentage, o.resetText, now), o.resetText, "Resets ")
  {
    match usage
    case None =>
      // every `?? null` gives null, so no pacing, and there is no reset text to fall back on
      MenuLines(MenuBarTitle(isLoading, None), None,
                UndefinedPercentage + " used", Subtitle(CalculateSessionPacing(None, None), None, "Resets in "),
                "All Models: " + UndefinedPercentage, Subtitle(CalculatePacing(None, None, now), None, "Resets "),
                "Sonnet Only: " + UndefinedPercentage, Subtitle(CalculatePacing(None, None, now), None, "Resets "))
    case Some(u) =>
      var s, a, o := u.currentSession, u.allModels, u.sonnet;
      MenuLines(MenuBarTitle(isLoading, usage),
                if u.error.Some? && u.error.value != "" then Some("Error: " + u.error.value) else None,
                FormatPercentage(s.usedPercentage) + " used",
                Subtitle(CalculateSessionPacing(s.usedPercentage, s.resetText), s.resetText, "Resets in "),
                "All Models: " + FormatPercentage(a.usedPercentage),
                Subtitle(CalculatePacing(a.usedPercentage, a.resetText, now), a.resetText, "Resets "),
                "Sonnet Only: " + FormatPercentage(o.usedPercentage),
                Subtitle(CalculatePacing(o.usedPercentage, o.resetText, now), o.resetText, "Resets "))
  }

  /**
   * The first render shows "C: ..." over "undefined% used": the loading title, yet percentages that
   * are neither a number nor the "—" that formatPercentage keeps for null.
   */
  lemma FirstRenderShowsUndefined(now: Clock)
    ensures var m := MenuBarItems(true, None, now);
            && m.title == "C: ..."
            && m.session == "undefined% used"
            && m.session != FormatPercentage(None) + " used"
            && m.errorItem.None?
  {
  }
}
