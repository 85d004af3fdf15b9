/**
 * The "Daily Summary" command of the Claude usage extension: reading Claude Code session logs
 * (one JSON entry per line) into per-session activity, aggregating the sessions of a time range,
 * and the heatmap, hour chart, most-productive-hour and productivity-tier helpers.
 *
 * Entries arrive already decoded; the clock, the local-time conversion and the directory walk
 * are parameters.
 */
module DailySummary {
  import opened Wrappers
  import opened Numeric
  import opened Text
  import opened Counter
  import Ordering
  import ResetParsing

  // ---------------------------------------------------------------------------------------
  // Time ranges and date keys
  // ---------------------------------------------------------------------------------------

  datatype TimeRange = Today | Yesterday | Week | Month | Custom

  /** isInRange: inclusive at both ends (times in milliseconds). */
  function IsInRange(timestamp: int, start: int, end: int): (inside: bool)
    ensures inside ==> start <= end
    ensures start <= end && (timestamp == start || timestamp == end) ==> inside
    ensures timestamp < start || timestamp > end ==> !inside
  {
    start <= timestamp && timestamp <= end
  }

  type Month0 = m: int | 0 <= m < 12
  type DayOfMonth = d: int | 1 <= d <= 31 witness 1

  /** A moment in local time, as `getFullYear`, `getMonth`, `getDate` and `getHours` give it. */
  datatype LocalTime = LocalTime(year: int, month: Month0, date: DayOfMonth, hour: ResetParsing.HourOfDay)

  /** `String(n).padStart(2, "0")` for n below 100. */
  function PadStart2(n: nat): (r: string)
    requires n < 100
    ensures |r| == 2 && AllDigits(r) && DecimalValue(r) == n
  {
    ResetParsing.Pad2Value(n);
    ResetParsing.Pad2(n)
  }

  /** formatDateKey: "YYYY-MM-DD" with a 1-based month. */
  function FormatDateKey(t: LocalTime): (key: string)
    ensures |key| >= 6 && key[..|key| - 6] == IntToString(t.year)
    ensures key[|key| - 6] == '-' && key[|key| - 3] == '-'
    ensures AllDigits(key[|key| - 5..|key| - 3]) && DecimalValue(key[|key| - 5..|key| - 3]) == t.month + 1
    ensures AllDigits(key[|key| - 2..]) && DecimalValue(key[|key| - 2..]) == t.date
  {
    var y, mm, dd := IntToString(t.year), PadStart2(t.month + 1), PadStart2(t.date);
    var tail := "-" + mm + "-" + dd;
    assert |tail| == 6 && tail[1..3] == mm && tail[4..] == dd;
    var key := y + tail;
    assert key[..|y|] == y && key[|y|..] == tail;
    assert key[|y| + 1..|y| + 3] == mm && key[|y| + 4..] == dd;
    key
  }

  /** Two moments share a day key exactly when they fall on the same calendar day. */
  lemma DateKeySameDay(a: LocalTime, b: LocalTime)
    ensures FormatDateKey(a) == FormatDateKey(b) <==> a.year == b.year && a.month == b.month && a.date == b.date
  {
    if FormatDateKey(a) == FormatDateKey(b) {
      SameKeySameFields(a, b);
    }
  }

  lemma SameKeySameFields(a: LocalTime, b: LocalTime)
    requires FormatDateKey(a) == FormatDateKey(b)
    ensures a.year == b.year && a.month == b.month && a.date == b.date
  {
    IntToStringInjective(a.year, b.year);
  }

  // ---------------------------------------------------------------------------------------
  // Session log entries
  // ---------------------------------------------------------------------------------------

  datatype Role = UserRole | AssistantRole | OtherRole

  /** A tool call's input; an absent or empty field is "". */
  datatype ToolInput = ToolInput(filePath: string, content: string, newString: string)

  /** One element of a message's content: a bare string or a typed block. */
  datatype Content =
    | Plain(text: string)
    | TextBlock(text: string)
    | ToolUse(name: string, input: ToolInput)
    | OtherBlock

  /**
   * One line of a session log: `Malformed` when it is not JSON; otherwise the timestamp it
   * carries (`None` when absent or not a date), whether `userType` is "external", the message
   * role and the message content (a single string becomes a one-element list).
   */
  datatype Entry =
    | Malformed
    | Entry(time: Option<int>, external: bool, role: Role, contents: seq<Content>)

  datatype SessionActivity = SessionActivity(
    project: string,
    projectPath: string,
    sessionFile: string,
    timestamp: int,
    userPrompts: seq<string>,
    filesCreated: seq<string>,
    filesModified: seq<string>,
    toolsUsed: Counts,
    codeBlockCount: nat,
    linesWritten: nat)

  const PromptLimit: nat := 300

  /** The prompt a user content element contributes, if any. */
  function UserPrompt(c: Content): (p: Option<string>)
    ensures p.Some? ==> (c.Plain? || c.TextBlock?) && !StartsWith(c.text, "<system")
    ensures p.Some? ==> p.value == Take(Trim(c.text), PromptLimit)
    ensures c.Plain? && Trim(c.text) != "" && !StartsWith(c.text, "<system") ==> p.Some?
    ensures c.TextBlock? && c.text != "" && !StartsWith(c.text, "<system") ==> p.Some?
  {
    match c
    case Plain(t) => if Trim(t) != "" && !StartsWith(t, "<system") then Some(Take(Trim(t), PromptLimit)) else None
    case TextBlock(t) => if t != "" && !StartsWith(t, "<system") then Some(Take(Trim(t), PromptLimit)) else None
    case _ => None
  }

  function PromptsIn(cs: seq<Content>): seq<string> {
    if cs == [] then []
    else
      var last := UserPrompt(cs[|cs| - 1]);
      PromptsIn(cs[..|cs| - 1]) + (if last.Some? then [last.value] else [])
  }

  predicate IsUserMessage(e: Entry) {
    e.Entry? && e.external && e.role == UserRole
  }

  predicate IsAssistantMessage(e: Entry) {
    e.Entry? && e.role == AssistantRole
  }

  function EntryPrompts(e: Entry): seq<string> {
    if IsUserMessage(e) then PromptsIn(e.contents) else []
  }

  function Prompts(es: seq<Entry>): seq<string> {
    if es == [] then [] else Prompts(es[..|es| - 1]) + EntryPrompts(es[|es| - 1])
  }

  /** What the assistant's messages did: tools called, files written and edited, code, lines. */
  datatype Work = Work(tools: Counts, created: seq<string>, modified: seq<string>, codeBlocks: nat, lines: nat)

  const NoWork := Work([], [], [], 0, 0)

  /** `(text.match(/\n/g) || []).length + 1`. */
  function LineCount(text: string): nat {
    CountChar(text, '\n') + 1
  }

  function WorkStep(w: Work, c: Content): Work {
    match c
    case ToolUse(name, input) =>
      if name == "" then w
      else
        var w1 := w.(tools := Add(w.tools, name, 1));
        if input.filePath == "" then w1
        else if name == "Write" then
          w1.(created := w1.created + [input.filePath],
              lines := w1.lines + (if input.content != "" then LineCount(input.content) else 0))
        else if name == "Edit" then
          w1.(modified := w1.modified + [input.filePath],
              lines := w1.lines + (if input.newString != "" then LineCount(input.newString) else 0))
        else w1
    case TextBlock(t) =>
      if t != "" then w.(codeBlocks := w.codeBlocks + CountOccurrences(t, "```") / 2) else w
    case _ => w
  }

  function WorkIn(w: Work, cs: seq<Content>): Work {
    if cs == [] then w else WorkStep(WorkIn(w, cs[..|cs| - 1]), cs[|cs| - 1])
  }

  function EntryWork(w: Work, e: Entry): Work {
    if IsAssistantMessage(e) then WorkIn(w, e.contents) else w
  }

  function WorkOf(es: seq<Entry>): Work {
    if es == [] then NoWork else EntryWork(WorkOf(es[..|es| - 1]), es[|es| - 1])
  }

  function InRangeTime(e: Entry, start: int, end: int): Option<int> {
    if e.Entry? && e.time.Some? && IsInRange(e.time.value, start, end) then e.time else None
  }

  predicate HasInRange(es: seq<Entry>, start: int, end: int) {
    es != [] && (HasInRange(es[..|es| - 1], start, end) || InRangeTime(es[|es| - 1], start, end).Some?)
  }

  /** The activity timestamp: starts at the epoch and moves forward to each later in-range time. */
  function Latest(es: seq<Entry>, start: int, end: int): int {
    if es == [] then 0
    else
      var p := Latest(es[..|es| - 1], start, end);
      match InRangeTime(es[|es| - 1], start, end)
      case Some(t) => if t > p then t else p
      case None => p
  }

  /** parseSessionFile's result as a value. */
  function SessionOf(entries: seq<Entry>, project: string, projectPath: string, sessionFile: string,
                     start: int, end: int): Option<SessionActivity>
  {
    if HasInRange(entries, start, end) then
      var w := WorkOf(entries);
      Some(SessionActivity(project, projectPath, sessionFile, Latest(entries, start, end),
                           Prompts(entries), w.created, w.modified, w.tools, w.codeBlocks, w.lines))
    else None
  }

  /** The user-prompt loop over one message's content. */
  method CollectPrompts(cs: seq<Content>) returns (prompts: seq<string>)
    ensures prompts == PromptsIn(cs)
  {
    prompts := [];
    var j := 0;
    while j < |cs|
      invariant 0 <= j <= |cs|
      invariant prompts == PromptsIn(cs[..j])
    {
      PromptsInStep(cs, j);
      var c := cs[j];
      if c.Plain? && Trim(c.text) != "" && !StartsWith(c.text, "<system") {
        prompts := prompts + [Take(Trim(c.text), PromptLimit)];
      } else if c.TextBlock? && c.text != "" && !StartsWith(c.text, "<system") {
        prompts := prompts + [Take(Trim(c.text), PromptLimit)];
      }
      j := j + 1;
    }
    assert cs[..|cs|] == cs;
  }

  lemma PromptsInStep(cs: seq<Content>, j: nat)
    requires j < |cs|
    ensures var p := UserPrompt(cs[j]);
            PromptsIn(cs[..j + 1]) == PromptsIn(cs[..j]) + (if p.Some? then [p.value] else [])
  {
    assert cs[..j + 1][..j] == cs[..j];
  }

  /** The tool-use and code-block loop over one assistant message's content. */
  method CollectWork(w0: Work, cs: seq<Content>) returns (w: Work)
    ensures w == WorkIn(w0, cs)
  {
    w := w0;
    var j := 0;
    while j < |cs|
      invariant 0 <= j <= |cs|
      invariant w == WorkIn(w0, cs[..j])
    {
      assert cs[..j + 1][..j] == cs[..j];
      var c := cs[j];
      if c.ToolUse? && c.name != "" {
        w := w.(tools := Add(w.tools, c.name, 1));
        if c.input.filePath != "" {
          if c.name == "Write" {
            w := w.(created := w.created + [c.input.filePath]);
            if c.input.content != "" {
              w := w.(lines := w.lines + LineCount(c.input.content));
            }
          } else if c.name == "Edit" {
            w := w.(modified := w.modified + [c.input.filePath]);
            if c.input.newString != "" {
              w := w.(lines := w.lines + LineCount(c.input.newString));
            }
          }
        }
      }
      if c.TextBlock? && c.text != "" {
        w := w.(codeBlocks := w.codeBlocks + CountOccurrences(c.text, "```") / 2);
      }
      j := j + 1;
    }
    assert cs[..|cs|] == cs;
  }

  /** parseSessionFile over the decoded lines of one session log. */
  method ParseSessionFile(entries: seq<Entry>, project: string, projectPath: string, sessionFile: string,
                          start: int, end: int) returns (r: Option<SessionActivity>)
    ensures r == SessionOf(entries, project, projectPath, sessionFile, start, end)
    ensures r.Some? <==> HasInRange(entries, start, end)
    ensures r.Some? ==>
      var w := WorkOf(entries);
      r.value == SessionActivity(project, projectPath, sessionFile, Latest(entries, start, end),
                                 Prompts(entries), w.created, w.modified, w.tools, w.codeBlocks, w.lines)
  {
    var timestamp := 0;
    var prompts: seq<string> := [];
    var w := NoWork;
    var hasActivityInRange := false;
    var i := 0;
    while i < |entries|
      invariant 0 <= i <= |entries|
      invariant hasActivityInRange == HasInRange(entries[..i], start, end)
      invariant timestamp == Latest(entries[..i], start, end)
      invariant prompts == Prompts(entries[..i])
      invariant w == WorkOf(entries[..i])
    {
      var entry := entries[i];
      ScanStep(entries, i, start, end);
      if entry.Entry? {
        if entry.time.Some? && IsInRange(entry.time.value, start, end) {
          hasActivityInRange := true;
          if entry.time.value > timestamp {
            timestamp := entry.time.value;
          }
        }
        if entry.external && entry.role == UserRole {
          var more := CollectPrompts(entry.contents);
          prompts := prompts + more;
        }
        if entry.role == AssistantRole {
          w := CollectWork(w, entry.contents);
        }
      }
      i := i + 1;
    }
    assert entries[..|entries|] == entries;
    if hasActivityInRange {
      r := Some(SessionActivity(project, projectPath, sessionFile, timestamp, prompts,
                                w.created, w.modified, w.tools, w.codeBlocks, w.lines));
    } else {
      r := None;
    }
  }

  /** One more line of the log, as each of the loop's running values sees it. */
  lemma ScanStep(entries: seq<Entry>, i: nat, start: int, end: int)
    requires i < |entries|
    ensures HasInRange(entries[..i + 1], start, end)
            == (HasInRange(entries[..i], start, end) || InRangeTime(entries[i], start, end).Some?)
    ensures Latest(entries[..i + 1], start, end)
            == match InRangeTime(entries[i], start, end)
               case Some(t) => if t > Latest(entries[..i], start, end) then t else Latest(entries[..i], start, end)
               case None => Latest(entries[..i], start, end)
    ensures Prompts(entries[..i + 1]) == Prompts(entries[..i]) + EntryPrompts(entries[i])
    ensures WorkOf(entries[..i + 1]) == EntryWork(WorkOf(entries[..i]), entries[i])
  {
    assert entries[..i + 1][..i] == entries[..i];
  }

  /** A session counts only if some entry's time is in range; malformed lines never do. */
  lemma {:induction false} HasInRangeExactly(es: seq<Entry>, start: int, end: int)
    ensures HasInRange(es, start, end) <==> exists k :: 0 <= k < |es| && InRangeTime(es[k], start, end).Some?
  {
    if es != [] {
      var p := es[..|es| - 1];
      HasInRangeExactly(p, start, end);
      assert forall k :: 0 <= k < |p| ==> p[k] == es[k];
    }
  }

  /** The activity timestamp is the latest in-range time, or the epoch when all are earlier. */
  lemma {:induction false} LatestIsLatest(es: seq<Entry>, start: int, end: int)
    ensures Latest(es, start, end) >= 0
    ensures forall k :: 0 <= k < |es| && InRangeTime(es[k], start, end).Some? ==>
              InRangeTime(es[k], start, end).value <= Latest(es, start, end)
    ensures Latest(es, start, end) == 0
         || exists k :: 0 <= k < |es| && InRangeTime(es[k], start, end) == Some(Latest(es, start, end))
  {
    if es != [] {
      var p := es[..|es| - 1];
      LatestIsLatest(p, start, end);
      assert forall k :: 0 <= k < |p| ==> p[k] == es[k];
    }
  }

  /** A stored prompt is at most 300 characters and starts with no whitespace. */
  predicate WellFormedPrompt(p: string) {
    |p| <= PromptLimit && (p == [] || !IsSpace(p[0]))
  }

  lemma UserPromptWellFormed(c: Content)
    requires UserPrompt(c).Some?
    ensures WellFormedPrompt(UserPrompt(c).value)
  {
    var t := Trim(c.text);
    var p := UserPrompt(c).value;
    if p != [] {
      assert p[0] == t[0];
    }
  }

  lemma {:induction false} PromptsInWellFormed(cs: seq<Content>)
    ensures forall p :: p in PromptsIn(cs) ==> WellFormedPrompt(p)
  {
    if cs != [] {
      PromptsInWellFormed(cs[..|cs| - 1]);
      if UserPrompt(cs[|cs| - 1]).Some? {
        UserPromptWellFormed(cs[|cs| - 1]);
      }
    }
  }

  /** Every stored prompt is trimmed at the front and at most 300 characters long. */
  lemma {:induction false} PromptsWellFormed(es: seq<Entry>)
    ensures forall p :: p in Prompts(es) ==> WellFormedPrompt(p)
  {
    if es != [] {
      PromptsWellFormed(es[..|es| - 1]);
      if IsUserMessage(es[|es| - 1]) {
        PromptsInWellFormed(es[|es| - 1].contents);
      }
    }
  }

  /** The number of named tool calls in assistant messages. */
  function ToolCallsIn(cs: seq<Content>): nat {
    if cs == [] then 0
    else ToolCallsIn(cs[..|cs| - 1]) + (if cs[|cs| - 1].ToolUse? && cs[|cs| - 1].name != "" then 1 else 0)
  }

  function ToolCalls(es: seq<Entry>): nat {
    if es == [] then 0
    else ToolCalls(es[..|es| - 1]) + (if IsAssistantMessage(es[|es| - 1]) then ToolCallsIn(es[|es| - 1].contents) else 0)
  }

  lemma {:induction false} WorkInToolTotal(w: Work, cs: seq<Content>)
    ensures Total(WorkIn(w, cs).tools) == Total(w.tools) + ToolCallsIn(cs)
  {
    if cs != [] {
      WorkInToolTotal(w, cs[..|cs| - 1]);
      var c := cs[|cs| - 1];
      if c.ToolUse? && c.name != "" {
        AddTotal(WorkIn(w, cs[..|cs| - 1]).tools, c.name, 1);
      }
    }
  }

  /** Each named tool call adds one to exactly one tool's count. */
  lemma {:induction false} ToolCountsAddUp(es: seq<Entry>)
    ensures Total(WorkOf(es).tools) == ToolCalls(es)
  {
    if es != [] {
      ToolCountsAddUp(es[..|es| - 1]);
      if IsAssistantMessage(es[|es| - 1]) {
        WorkInToolTotal(WorkOf(es[..|es| - 1]), es[|es| - 1].contents);
      }
    }
  }

  lemma {:induction false} WorkInUnique(w: Work, cs: seq<Content>)
    requires UniqueKeys(w.tools)
    ensures UniqueKeys(WorkIn(w, cs).tools)
  {
    if cs != [] {
      WorkInUnique(w, cs[..|cs| - 1]);
      var c := cs[|cs| - 1];
      if c.ToolUse? && c.name != "" {
        AddUnique(WorkIn(w, cs[..|cs| - 1]).tools, c.name, 1);
      }
    }
  }

  /** Each tool appears once in the per-session counts. */
  lemma {:induction false} ToolNamesUnique(es: seq<Entry>)
    ensures UniqueKeys(WorkOf(es).tools)
  {
    if es != [] {
      ToolNamesUnique(es[..|es| - 1]);
      if IsAssistantMessage(es[|es| - 1]) {
        WorkInUnique(WorkOf(es[..|es| - 1]), es[|es| - 1].contents);
      }
    }
  }

  // ---------------------------------------------------------------------------------------
  // Scanning the project directories
  // ---------------------------------------------------------------------------------------

  /** A session log file: its path, its modification time and its decoded lines. */
  datatype SessionLog = SessionLog(path: string, mtime: int, entries: seq<Entry>)

  /** An entry of the projects directory: its name, whether it is a directory, its files. */
  datatype ProjectDir = ProjectDir(name: string, isDirectory: bool, logs: seq<SessionLog>)

  const DayMillis: int := 86400000

  /** `projectDir.split("-").pop() || projectDir`: the text after the last "-". */
  function ProjectName(dir: string): (name: string)
    ensures '-' !in dir ==> name == dir
    ensures |dir| > 0 && dir[|dir| - 1] == '-' ==> name == dir
    ensures '-' in dir && dir[|dir| - 1] != '-' ==>
      exists k :: 0 <= k < |dir| && dir[k] == '-' && name == dir[k + 1..] && '-' !in name
  {
    var last := Split(dir, '-')[|Split(dir, '-')| - 1];
    SplitLast(dir, '-');
    if last == "" then dir
    else
      assert |dir| > 0 && dir[|dir| - 1] == '-' ==> false by {
        if '-' in dir {
          var k :| 0 <= k < |dir| && dir[k] == '-' && last == dir[k + 1..];
          assert last[|last| - 1] == dir[|dir| - 1];
        }
      }
      last
  }

  /**
   * `"/" + projectDir.replace(/-/g, "/").replace(/^\//, "")`: a leading "-" or "/" is dropped,
   * every other "-" becomes "/", and the result is rooted at "/".
   */
  function OriginalPath(dir: string): (path: string)
    ensures var k := if |dir| > 0 && (dir[0] == '-' || dir[0] == '/') then 1 else 0;
            && |path| == |dir| - k + 1
            && path[0] == '/'
            && forall i :: k <= i < |dir| ==> path[i - k + 1] == if dir[i] == '-' then '/' else dir[i]
    ensures '-' !in path
  {
    var slashed := ReplaceChar(dir, '-', "/");
    ReplaceCharRemovesAll(dir, '-', "/");
    ReplaceCharByChar(dir, '-', '/');
    "/" + (if StartsWith(slashed, "/") then slashed[1..] else slashed)
  }

  predicate ProjectListed(p: ProjectDir) {
    !StartsWith(p.name, ".") && p.isDirectory
  }

  /** A log is read when it is a .jsonl file modified no earlier than a day before the range. */
  predicate LogConsidered(l: SessionLog, start: int) {
    EndsWith(l.path, ".jsonl") && l.mtime >= start - DayMillis
  }

  /** The session one log contributes: read, active in range and with at least one prompt. */
  function LogSession(p: ProjectDir, l: SessionLog, start: int, end: int): Option<SessionActivity> {
    if !LogConsidered(l, start) then None
    else
      var a := SessionOf(l.entries, ProjectName(p.name), OriginalPath(p.name), l.path, start, end);
      if a.Some? && |a.value.userPrompts| > 0 then a else None
  }

  /** The sessions of one project's logs that have activity in range and at least one prompt. */
  function LogSessions(p: ProjectDir, logs: seq<SessionLog>, start: int, end: int): seq<SessionActivity> {
    if logs == [] then []
    else
      var a := LogSession(p, logs[|logs| - 1], start, end);
      LogSessions(p, logs[..|logs| - 1], start, end) + (if a.Some? then [a.value] else [])
  }

  /** All sessions scanActivity keeps, in directory order. */
  function KeptSessions(projects: seq<ProjectDir>, start: int, end: int): seq<SessionActivity> {
    if projects == [] then []
    else
      var p := projects[|projects| - 1];
      KeptSessions(projects[..|projects| - 1], start, end)
        + (if ProjectListed(p) then LogSessions(p, p.logs, start, end) else [])
  }

  /** The running totals scanActivity keeps while it walks the sessions. */
  datatype Totals = Totals(
    sessions: seq<SessionActivity>,
    totalPrompts: nat,
    totalFilesCreated: nat,
    totalFilesModified: nat,
    totalLinesWritten: nat,
    projectsWorkedOn: seq<string>,
    activityByDay: Counts,
    activityByHour: seq<nat>,
    toolUsage: Counts)

  const NoTotals := Totals([], 0, 0, 0, 0, [], [], Zeros(24), [])

  function Zeros(n: nat): (z: seq<nat>)
    ensures |z| == n && forall i :: 0 <= i < n ==> z[i] == 0
  {
    if n == 0 then [] else Zeros(n - 1) + [0]
  }

  /** `[...new Set(xs)].length`. */
  function DistinctCount(xs: seq<string>): nat {
    |set x | x in xs|
  }

  /** `for (const [tool, count] of Object.entries(counts)) total[tool] = (total[tool] || 0) + count`. */
  function AddAll(total: Counts, counts: Counts): Counts {
    if counts == [] then total
    else
      var last := counts[|counts| - 1];
      Add(AddAll(total, counts[..|counts| - 1]), last.0, last.1)
  }

  /** `counts[i] += n` on the 24-slot hour histogram. */
  function Bump(counts: seq<nat>, i: nat, n: nat): (r: seq<nat>)
    ensures |r| == |counts|
  {
    if i < |counts| then counts[i := counts[i] + n] else counts
  }

  /**
   * What scanActivity adds to its totals for one kept session. What this step keeps true of the
   * totals is stated by AddSessionCoherent and AddSessionDays.
   */
  function AddSession(t: Totals, a: SessionActivity, local: int -> LocalTime): (r: Totals)
    ensures |r.activityByHour| == |t.activityByHour|
  {
    var n := |a.userPrompts|;
    var when := local(a.timestamp);
    Totals(t.sessions + [a],
           t.totalPrompts + n,
           t.totalFilesCreated + DistinctCount(a.filesCreated),
           t.totalFilesModified + DistinctCount(a.filesModified),
           t.totalLinesWritten + a.linesWritten,
           if a.project in t.projectsWorkedOn then t.projectsWorkedOn else t.projectsWorkedOn + [a.project],
           Add(t.activityByDay, FormatDateKey(when), n),
           Bump(t.activityByHour, when.hour, n),
           AddAll(t.toolUsage, a.toolsUsed))
  }

  function Step(local: int -> LocalTime): (Totals, SessionActivity) -> Totals {
    (t, a) => AddSession(t, a, local)
  }

  /** The totals after a run of sessions, from given starting totals. */
  function FoldSessions(t0: Totals, ss: seq<SessionActivity>, step: (Totals, SessionActivity) -> Totals): Totals {
    if ss == [] then t0 else step(FoldSessions(t0, ss[..|ss| - 1], step), ss[|ss| - 1])
  }

  function Aggregate(ss: seq<SessionActivity>, local: int -> LocalTime): (t: Totals)
    ensures t.sessions == ss
    ensures Coherent(t)
    ensures DaysFollowSessions(t, local)
  {
    NoTotalsCoherent();
    NoTotalsDays(local);
    FoldCoherent(NoTotals, ss, local);
    FoldDays(NoTotals, ss, local);
    FoldSessionsRecords(NoTotals, ss, local);
    assert NoTotals.sessions + ss == ss;
    FoldSessions(NoTotals, ss, Step(local))
  }

  lemma FoldSessionsSnoc(t0: Totals, ss: seq<SessionActivity>, a: SessionActivity,
                         step: (Totals, SessionActivity) -> Totals)
    ensures FoldSessions(t0, ss + [a], step) == step(FoldSessions(t0, ss, step), a)
  {
    assert (ss + [a])[..|ss|] == ss;
  }

  lemma {:induction false} FoldSessionsAppend(t0: Totals, xs: seq<SessionActivity>, ys: seq<SessionActivity>,
                                              step: (Totals, SessionActivity) -> Totals)
    ensures FoldSessions(t0, xs + ys, step) == FoldSessions(FoldSessions(t0, xs, step), ys, step)
  {
    if ys == [] {
      assert xs + ys == xs;
    } else {
      var ys' := ys[..|ys| - 1];
      FoldSessionsAppend(t0, xs, ys', step);
      assert (xs + ys)[..|xs + ys| - 1] == xs + ys';
    }
  }

  datatype Summary = Summary(
    sessions: seq<SessionActivity>,
    totalPrompts: nat,
    totalFilesCreated: nat,
    totalFilesModified: nat,
    totalLinesWritten: nat,
    projectsWorkedOn: seq<string>,
    topTools: Counts,
    activityByDay: Counts,
    activityByHour: seq<nat>,
    uniqueDaysActive: nat)

  function Newest(a: SessionActivity): Ordering.Key {
    Ordering.Key(a.timestamp, 0)
  }

  function ByCount(e: (string, nat)): Ordering.Key {
    Ordering.Key(e.1, 0)
  }

  const TopToolCount: nat := 6

  /** The tail of scanActivity: distinct days, the six most used tools, newest sessions first. */
  function Finish(t: Totals): (s: Summary)
    ensures multiset(s.sessions) == multiset(t.sessions) && Ordering.SortedDesc(s.sessions, Newest)
    ensures |s.topTools| == if |t.toolUsage| < TopToolCount then |t.toolUsage| else TopToolCount
    ensures Ordering.SortedDesc(s.topTools, ByCount)
    ensures forall e :: e in s.topTools ==> e in t.toolUsage
    ensures forall e, f :: e in s.topTools && f in t.toolUsage && f !in s.topTools ==> f.1 <= e.1
  {
    TopToolsFacts(t.toolUsage);
    Summary(Ordering.SortDesc(t.sessions, Newest),
            t.totalPrompts, t.totalFilesCreated, t.totalFilesModified, t.totalLinesWritten,
            t.projectsWorkedOn,
            Ordering.Take(Ordering.SortDesc(t.toolUsage, ByCount), TopToolCount),
            t.activityByDay, t.activityByHour,
            |t.activityByDay|)
  }

  /** The tool-usage loop: each tool's session count added to the running total. */
  method AggregateTools(total: Counts, counts: Counts) returns (r: Counts)
    ensures r == AddAll(total, counts)
  {
    r := total;
    var k := 0;
    while k < |counts|
      invariant 0 <= k <= |counts|
      invariant r == AddAll(total, counts[..k])
    {
      assert counts[..k + 1][..k] == counts[..k];
      r := Add(r, counts[k].0, counts[k].1);
      k := k + 1;
    }
    assert counts[..|counts|] == counts;
  }

  /** The body of scanActivity's inner loop for a kept session. */
  method RecordSession(t0: Totals, a: SessionActivity, local: int -> LocalTime) returns (t: Totals)
    ensures t == AddSession(t0, a, local)
  {
    var n := |a.userPrompts|;
    var when := local(a.timestamp);
    var projects := t0.projectsWorkedOn;
    if a.project !in projects {
      projects := projects + [a.project];
    }
    assert projects == if a.project in t0.projectsWorkedOn then t0.projectsWorkedOn
                       else t0.projectsWorkedOn + [a.project];
    var tools := AggregateTools(t0.toolUsage, a.toolsUsed);
    t := Totals(t0.sessions + [a],
                t0.totalPrompts + n,
                t0.totalFilesCreated + DistinctCount(a.filesCreated),
                t0.totalFilesModified + DistinctCount(a.filesModified),
                t0.totalLinesWritten + a.linesWritten,
                projects,
                Add(t0.activityByDay, FormatDateKey(when), n),
                Bump(t0.activityByHour, when.hour, n),
                tools);
    SessionTotalsAre(t0, a, local, projects, tools);
  }

  lemma SessionTotalsAre(t0: Totals, a: SessionActivity, local: int -> LocalTime,
                         projects: seq<string>, tools: Counts)
    requires projects == if a.project in t0.projectsWorkedOn then t0.projectsWorkedOn
                         else t0.projectsWorkedOn + [a.project]
    requires tools == AddAll(t0.toolUsage, a.toolsUsed)
    ensures var n, when := |a.userPrompts|, local(a.timestamp);
            AddSession(t0, a, local)
            == Totals(t0.sessions + [a],
                      t0.totalPrompts + n,
                      t0.totalFilesCreated + DistinctCount(a.filesCreated),
                      t0.totalFilesModified + DistinctCount(a.filesModified),
                      t0.totalLinesWritten + a.linesWritten,
                      projects,
                      Add(t0.activityByDay, FormatDateKey(when), n),
                      Bump(t0.activityByHour, when.hour, n),
                      tools)
  {
  }

  lemma StepIs(local: int -> LocalTime, t: Totals, a: SessionActivity)
    ensures Step(local)(t, a) == AddSession(t, a, local)
  {
  }

  lemma LogSessionsSnoc(p: ProjectDir, j: nat, start: int, end: int)
    requires j < |p.logs|
    ensures var a := LogSession(p, p.logs[j], start, end);
            LogSessions(p, p.logs[..j + 1], start, end)
            == LogSessions(p, p.logs[..j], start, end) + (if a.Some? then [a.value] else [])
  {
    assert p.logs[..j + 1][..j] == p.logs[..j];
  }

  /** One session log: parsed and recorded when it is a recent .jsonl file with prompts in range. */
  method ScanLog(p: ProjectDir, log: SessionLog, projectName: string, originalPath: string,
                 start: int, end: int, local: int -> LocalTime, t0: Totals)
    returns (t: Totals)
    requires projectName == ProjectName(p.name) && originalPath == OriginalPath(p.name)
    ensures LogSession(p, log, start, end).Some? ==> t == AddSession(t0, LogSession(p, log, start, end).value, local)
    ensures LogSession(p, log, start, end).None? ==> t == t0
  {
    t := t0;
    if EndsWith(log.path, ".jsonl") && log.mtime >= start - DayMillis {
      var activity := ParseSessionFile(log.entries, projectName, originalPath, log.path, start, end);
      if activity.Some? && |activity.value.userPrompts| > 0 {
        t := RecordSession(t, activity.value, local);
      }
    }
  }

  /** The walk over one project's session logs. */
  method ScanProject(p: ProjectDir, start: int, end: int, local: int -> LocalTime, t0: Totals)
    returns (t: Totals)
    ensures t == FoldSessions(t0, LogSessions(p, p.logs, start, end), Step(local))
  {
    t := t0;
    var projectName := ProjectName(p.name);
    var originalPath := OriginalPath(p.name);
    var j := 0;
    while j < |p.logs|
      invariant 0 <= j <= |p.logs|
      invariant t == FoldSessions(t0, LogSessions(p, p.logs[..j], start, end), Step(local))
    {
      ghost var before := LogSessions(p, p.logs[..j], start, end);
      ghost var a := LogSession(p, p.logs[j], start, end);
      LogSessionsSnoc(p, j, start, end);
      var t' := ScanLog(p, p.logs[j], projectName, originalPath, start, end, local, t);
      if a.Some? {
        FoldSessionsSnoc(t0, before, a.value, Step(local));
        StepIs(local, t, a.value);
      } else {
        assert before + [] == before;
      }
      t := t';
      j := j + 1;
    }
    assert p.logs[..|p.logs|] == p.logs;
  }

  lemma KeptSessionsSnoc(projects: seq<ProjectDir>, i: nat, start: int, end: int)
    requires i < |projects|
    ensures var p := projects[i];
            KeptSessions(projects[..i + 1], start, end)
            == KeptSessions(projects[..i], start, end) + (if ProjectListed(p) then LogSessions(p, p.logs, start, end) else [])
  {
    assert projects[..i + 1][..i] == projects[..i];
  }

  /** scanActivity over the projects directory, each project's logs given in directory order. */
  method ScanActivity(projects: seq<ProjectDir>, start: int, end: int, local: int -> LocalTime)
    returns (summary: Summary)
    ensures summary == Finish(Aggregate(KeptSessions(projects, start, end), local))
  {
    var t := NoTotals;
    var i := 0;
    while i < |projects|
      invariant 0 <= i <= |projects|
      invariant t == Aggregate(KeptSessions(projects[..i], start, end), local)
    {
      var p := projects[i];
      ghost var before := KeptSessions(projects[..i], start, end);
      KeptSessionsSnoc(projects, i, start, end);
      if !StartsWith(p.name, ".") && p.isDirectory {
        FoldSessionsAppend(NoTotals, before, LogSessions(p, p.logs, start, end), Step(local));
        t := ScanProject(p, start, end, local, t);
      } else {
        assert before + [] == before;
      }
      i := i + 1;
    }
    assert projects[..|projects|] == projects;
    summary := Finish(t);
  }

  // ---------------------------------------------------------------------------------------
  // What the aggregated summary promises
  // ---------------------------------------------------------------------------------------

  function Sum(xs: seq<nat>): nat {
    if xs == [] then 0 else xs[0] + Sum(xs[1..])
  }

  /** The prompts of a run of sessions, counted one session at a time. */
  function PromptCount(ss: seq<SessionActivity>): nat {
    if ss == [] then 0 else PromptCount(ss[..|ss| - 1]) + |ss[|ss| - 1].userPrompts|
  }

  /** The tool calls of a run of sessions. */
  function ToolCount(ss: seq<SessionActivity>): nat {
    if ss == [] then 0 else ToolCount(ss[..|ss| - 1]) + Total(ss[|ss| - 1].toolsUsed)
  }

  /** The distinct files created, counted session by session (`[...new Set(filesCreated)].length`). */
  function FilesCreatedCount(ss: seq<SessionActivity>): nat {
    if ss == [] then 0 else FilesCreatedCount(ss[..|ss| - 1]) + DistinctCount(ss[|ss| - 1].filesCreated)
  }

  /** The distinct files modified, counted session by session. */
  function FilesModifiedCount(ss: seq<SessionActivity>): nat {
    if ss == [] then 0 else FilesModifiedCount(ss[..|ss| - 1]) + DistinctCount(ss[|ss| - 1].filesModified)
  }

  /** The lines written over a run of sessions. */
  function LinesCount(ss: seq<SessionActivity>): nat {
    if ss == [] then 0 else LinesCount(ss[..|ss| - 1]) + ss[|ss| - 1].linesWritten
  }

  predicate NoDuplicates(xs: seq<string>) {
    forall i, j :: 0 <= i < j < |xs| ==> xs[i] != xs[j]
  }

  /**
   * The agreements among scanActivity's running totals: the hour histogram has 24 slots, and it
   * and the per-day tally each add up to the prompt count; the tool tally adds up to the tool
   * calls; the file totals sum each session's distinct files and the line total its lines; the
   * project list names each project of a recorded session exactly once.
   */
  ghost predicate Coherent(t: Totals) {
    && |t.activityByHour| == 24
    && t.totalPrompts == PromptCount(t.sessions)
    && t.totalFilesCreated == FilesCreatedCount(t.sessions)
    && t.totalFilesModified == FilesModifiedCount(t.sessions)
    && t.totalLinesWritten == LinesCount(t.sessions)
    && Sum(t.activityByHour) == t.totalPrompts
    && Total(t.activityByDay) == t.totalPrompts
    && UniqueKeys(t.activityByDay)
    && Total(t.toolUsage) == ToolCount(t.sessions)
    && UniqueKeys(t.toolUsage)
    && NoDuplicates(t.projectsWorkedOn)
    && (forall x :: x in t.projectsWorkedOn <==> exists s :: s in t.sessions && s.project == x)
  }

  lemma {:induction false} ZerosSum(n: nat)
    ensures Sum(Zeros(n)) == 0
  {
    if n > 0 {
      ZerosSum(n - 1);
      SumSnoc(Zeros(n - 1), 0);
    }
  }

  lemma {:induction false} SumSnoc(xs: seq<nat>, x: nat)
    ensures Sum(xs + [x]) == Sum(xs) + x
  {
    if xs != [] {
      assert (xs + [x])[1..] == xs[1..] + [x];
      SumSnoc(xs[1..], x);
    }
  }

  /** Adding to one hour adds to the histogram's total. */
  lemma {:induction false} BumpSum(xs: seq<nat>, i: nat, n: nat)
    requires i < |xs|
    ensures Sum(Bump(xs, i, n)) == Sum(xs) + n
  {
    if i > 0 {
      assert Bump(xs, i, n)[1..] == Bump(xs[1..], i - 1, n);
      BumpSum(xs[1..], i - 1, n);
    } else {
      assert Bump(xs, i, n)[1..] == xs[1..];
    }
  }

  lemma {:induction false} TotalSnoc(c: Counts, e: (string, nat))
    ensures Total(c + [e]) == Total(c) + e.1
  {
    if c != [] {
      assert (c + [e])[1..] == c[1..] + [e];
      TotalSnoc(c[1..], e);
    }
  }

  /** Merging a session's tool tally adds its calls to the running total. */
  lemma {:induction false} AddAllTotal(total: Counts, counts: Counts)
    ensures Total(AddAll(total, counts)) == Total(total) + Total(counts)
  {
    if counts != [] {
      var init := counts[..|counts| - 1];
      var last := counts[|counts| - 1];
      AddAllTotal(total, init);
      AddTotal(AddAll(total, init), last.0, last.1);
      TotalLast(counts);
    }
  }

  lemma TotalLast(c: Counts)
    requires c != []
    ensures Total(c) == Total(c[..|c| - 1]) + c[|c| - 1].1
  {
    assert c == c[..|c| - 1] + [c[|c| - 1]];
    TotalSnoc(c[..|c| - 1], c[|c| - 1]);
  }

  lemma {:induction false} AddAllUnique(total: Counts, counts: Counts)
    requires UniqueKeys(total)
    ensures UniqueKeys(AddAll(total, counts))
  {
    if counts != [] {
      AddAllUnique(total, counts[..|counts| - 1]);
      AddUnique(AddAll(total, counts[..|counts| - 1]), counts[|counts| - 1].0, counts[|counts| - 1].1);
    }
  }

  lemma NoTotalsDays(local: int -> LocalTime)
    ensures DaysFollowSessions(NoTotals, local)
  {
    assert Keys(NoTotals.activityByDay) == [];
  }

  lemma NoTotalsCoherent()
    ensures Coherent(NoTotals)
  {
    ZerosSum(24);
  }

  /** Recording a session keeps the totals coherent. */
  lemma AddSessionCoherent(t: Totals, a: SessionActivity, local: int -> LocalTime)
    requires Coherent(t)
    ensures Coherent(AddSession(t, a, local))
  {
    var n := |a.userPrompts|;
    var when := local(a.timestamp);
    CountsSnoc(t.sessions, a);
    BumpSum(t.activityByHour, when.hour, n);
    AddTotal(t.activityByDay, FormatDateKey(when), n);
    AddUnique(t.activityByDay, FormatDateKey(when), n);
    AddAllTotal(t.toolUsage, a.toolsUsed);
    AddAllUnique(t.toolUsage, a.toolsUsed);
    ProjectsFollowSessions(t, a, local);
  }

  lemma CountsSnoc(ss: seq<SessionActivity>, a: SessionActivity)
    ensures PromptCount(ss + [a]) == PromptCount(ss) + |a.userPrompts|
    ensures ToolCount(ss + [a]) == ToolCount(ss) + Total(a.toolsUsed)
    ensures FilesCreatedCount(ss + [a]) == FilesCreatedCount(ss) + DistinctCount(a.filesCreated)
    ensures FilesModifiedCount(ss + [a]) == FilesModifiedCount(ss) + DistinctCount(a.filesModified)
    ensures LinesCount(ss + [a]) == LinesCount(ss) + a.linesWritten
  {
    assert (ss + [a])[..|ss|] == ss;
  }

  /** The project list stays the set of the recorded sessions' projects, without repeats. */
  lemma ProjectsFollowSessions(t: Totals, a: SessionActivity, local: int -> LocalTime)
    requires NoDuplicates(t.projectsWorkedOn)
    requires forall x :: x in t.projectsWorkedOn <==> exists s :: s in t.sessions && s.project == x
    ensures var r := AddSession(t, a, local);
            && NoDuplicates(r.projectsWorkedOn)
            && forall x :: x in r.projectsWorkedOn <==> exists s :: s in r.sessions && s.project == x
  {
    AddSessionRecords(t, a, local);
    AddSessionProjects(t, a, local);
    ProjectsOfSnoc(t.projectsWorkedOn, t.sessions, a);
  }

  lemma AddSessionProjects(t: Totals, a: SessionActivity, local: int -> LocalTime)
    ensures AddSession(t, a, local).projectsWorkedOn
         == if a.project in t.projectsWorkedOn then t.projectsWorkedOn else t.projectsWorkedOn + [a.project]
  {
  }

  /** Adding a session's project when it is new keeps the list the set of the sessions' projects. */
  lemma ProjectsOfSnoc(ps: seq<string>, ss: seq<SessionActivity>, a: SessionActivity)
    requires NoDuplicates(ps)
    requires forall x :: x in ps <==> exists s :: s in ss && s.project == x
    ensures var qs := if a.project in ps then ps else ps + [a.project];
            && NoDuplicates(qs)
            && forall x :: x in qs <==> exists s :: s in ss + [a] && s.project == x
  {
    var qs := if a.project in ps then ps else ps + [a.project];
    forall x
      ensures x in qs <==> exists s :: s in ss + [a] && s.project == x
    {
      if x in qs && x != a.project {
        var s :| s in ss && s.project == x;
        assert s in ss + [a];
      }
      if x == a.project {
        assert a in ss + [a];
      }
    }
  }

  lemma {:induction false} FoldSessionsRecords(t0: Totals, ss: seq<SessionActivity>, local: int -> LocalTime)
    ensures FoldSessions(t0, ss, Step(local)).sessions == t0.sessions + ss
  {
    if ss != [] {
      var init, last := ss[..|ss| - 1], ss[|ss| - 1];
      var prev := FoldSessions(t0, init, Step(local));
      FoldSessionsRecords(t0, init, local);
      StepIs(local, prev, last);
      AddSessionRecords(prev, last, local);
      SnocRecords(t0.sessions, ss);
    }
  }

  lemma AddSessionRecords(t: Totals, a: SessionActivity, local: int -> LocalTime)
    ensures AddSession(t, a, local).sessions == t.sessions + [a]
  {
  }

  lemma SnocRecords(done: seq<SessionActivity>, ss: seq<SessionActivity>)
    requires ss != []
    ensures done + ss == (done + ss[..|ss| - 1]) + [ss[|ss| - 1]]
  {
    assert ss == ss[..|ss| - 1] + [ss[|ss| - 1]];
  }

  lemma {:induction false} FoldCoherent(t0: Totals, ss: seq<SessionActivity>, local: int -> LocalTime)
    requires Coherent(t0)
    ensures Coherent(FoldSessions(t0, ss, Step(local)))
  {
    if ss != [] {
      var init := ss[..|ss| - 1];
      var prev := FoldSessions(t0, init, Step(local));
      FoldCoherent(t0, init, local);
      StepIs(local, prev, ss[|ss| - 1]);
      AddSessionCoherent(prev, ss[|ss| - 1], local);
    }
  }

  /** The day key a session is tallied under. */
  function DayKey(a: SessionActivity, local: int -> LocalTime): string {
    FormatDateKey(local(a.timestamp))
  }

  /** The per-day tally has an entry for exactly the days of the recorded sessions. */
  ghost predicate DaysFollowSessions(t: Totals, local: int -> LocalTime) {
    (set k | k in Keys(t.activityByDay)) == (set a | a in t.sessions :: DayKey(a, local))
  }

  lemma AddSessionDays(t: Totals, a: SessionActivity, local: int -> LocalTime)
    requires DaysFollowSessions(t, local)
    ensures DaysFollowSessions(AddSession(t, a, local), local)
  {
    AddSessionDayFields(t, a, local);
    AddKeySet(t.activityByDay, DayKey(a, local), |a.userPrompts|);
    DaysSnoc(t.sessions, a, local);
  }

  lemma AddSessionDayFields(t: Totals, a: SessionActivity, local: int -> LocalTime)
    ensures AddSession(t, a, local).activityByDay == Add(t.activityByDay, DayKey(a, local), |a.userPrompts|)
    ensures AddSession(t, a, local).sessions == t.sessions + [a]
  {
  }

  lemma DaysSnoc(ss: seq<SessionActivity>, a: SessionActivity, local: int -> LocalTime)
    ensures (set b | b in ss + [a] :: DayKey(b, local)) == (set b | b in ss :: DayKey(b, local)) + {DayKey(a, local)}
  {
  }

  lemma {:induction false} FoldDays(t0: Totals, ss: seq<SessionActivity>, local: int -> LocalTime)
    requires DaysFollowSessions(t0, local)
    ensures DaysFollowSessions(FoldSessions(t0, ss, Step(local)), local)
  {
    if ss != [] {
      var init := ss[..|ss| - 1];
      var prev := FoldSessions(t0, init, Step(local));
      FoldDays(t0, init, local);
      StepIs(local, prev, ss[|ss| - 1]);
      AddSessionDays(prev, ss[|ss| - 1], local);
    }
  }

  /** A list without repeats has as many distinct elements as entries. */
  lemma {:induction false} DistinctCountNoDuplicates(xs: seq<string>)
    requires NoDuplicates(xs)
    ensures DistinctCount(xs) == |xs|
  {
    if xs != [] {
      var init := xs[..|xs| - 1];
      assert NoDuplicates(init) by {
        forall i, j | 0 <= i < j < |init|
          ensures init[i] != init[j]
        {
          assert init[i] == xs[i] && init[j] == xs[j];
        }
      }
      DistinctCountNoDuplicates(init);
      assert xs == init + [xs[|xs| - 1]];
      assert (set x | x in xs) == (set x | x in init) + {xs[|xs| - 1]};
      assert xs[|xs| - 1] !in init by {
        forall i | 0 <= i < |init|
          ensures init[i] != xs[|xs| - 1]
        {
          assert init[i] == xs[i];
        }
      }
    }
  }

  /** With one entry per key, the number of entries is the number of distinct keys. */
  lemma UniqueKeysCount(c: Counts)
    requires UniqueKeys(c)
    ensures |c| == |set k | k in Keys(c)|
  {
    var ks := Keys(c);
    assert NoDuplicates(ks) by {
      forall i, j | 0 <= i < j < |ks|
        ensures ks[i] != ks[j]
      {
        assert ks[i] == c[i].0 && ks[j] == c[j].0;
      }
    }
    DistinctCountNoDuplicates(ks);
  }

  /** The uniqueDaysActive count is the number of distinct days the sessions fall on. */
  lemma DaysActive(t: Totals, local: int -> LocalTime)
    requires Coherent(t) && DaysFollowSessions(t, local)
    ensures |t.activityByDay| == |set a | a in t.sessions :: DayKey(a, local)|
  {
    UniqueKeysCount(t.activityByDay);
  }

  /** Every kept session has at least one prompt. */
  lemma {:induction false} LogSessionsHavePrompts(p: ProjectDir, logs: seq<SessionLog>, start: int, end: int)
    ensures forall s :: s in LogSessions(p, logs, start, end) ==> |s.userPrompts| > 0
  {
    if logs != [] {
      LogSessionsHavePrompts(p, logs[..|logs| - 1], start, end);
    }
  }

  lemma {:induction false} KeptSessionsHavePrompts(projects: seq<ProjectDir>, start: int, end: int)
    ensures forall s :: s in KeptSessions(projects, start, end) ==> |s.userPrompts| > 0
  {
    if projects != [] {
      var p := projects[|projects| - 1];
      KeptSessionsHavePrompts(projects[..|projects| - 1], start, end);
      LogSessionsHavePrompts(p, p.logs, start, end);
    }
  }

  /** The summary scanActivity returns for the projects directory. */
  function ScanSummary(projects: seq<ProjectDir>, start: int, end: int, local: int -> LocalTime): (s: Summary)
    ensures multiset(s.sessions) == multiset(KeptSessions(projects, start, end))
    ensures s.totalPrompts == PromptCount(KeptSessions(projects, start, end))
    ensures s.totalFilesCreated == FilesCreatedCount(KeptSessions(projects, start, end))
    ensures s.totalFilesModified == FilesModifiedCount(KeptSessions(projects, start, end))
    ensures s.totalLinesWritten == LinesCount(KeptSessions(projects, start, end))
    ensures Sum(s.activityByHour) == s.totalPrompts && Total(s.activityByDay) == s.totalPrompts
    ensures s.uniqueDaysActive == |set a | a in KeptSessions(projects, start, end) :: DayKey(a, local)|
  {
    var t := Aggregate(KeptSessions(projects, start, end), local);
    DaysActive(t, local);
    Finish(t)
  }

  /** The six most used tools, most used first, taken from the tally. */
  lemma TopToolsFacts(tally: Counts)
    ensures var top := Ordering.Take(Ordering.SortDesc(tally, ByCount), TopToolCount);
            && |top| == (if |tally| < TopToolCount then |tally| else TopToolCount)
            && Ordering.SortedDesc(top, ByCount)
            && (forall e :: e in top ==> e in tally)
            && (forall e, f :: e in top && f in tally && f !in top ==> f.1 <= e.1)
  {
    var tools := Ordering.SortDesc(tally, ByCount);
    var top := Ordering.Take(tools, TopToolCount);
    forall e | e in top
      ensures e in tally
    {
      assert e in multiset(tools);
    }
    forall e, f | e in top && f in tally && f !in top
      ensures f.1 <= e.1
    {
      assert f in multiset(tools);
      var j :| 0 <= j < |tools| && tools[j] == f;
      var i :| 0 <= i < |top| && top[i] == e;
      assert tools[i] == e;
      assert Ordering.AtLeast(ByCount(tools[i]), ByCount(tools[j]));
    }
    forall i, j | 0 <= i < j < |top|
      ensures Ordering.AtLeast(ByCount(top[i]), ByCount(top[j]))
    {
      assert top[i] == tools[i] && top[j] == tools[j];
    }
  }

  /** The sessions of the summary are the given ones, newest first. */
  lemma SessionsFacts(ss: seq<SessionActivity>)
    requires forall a :: a in ss ==> |a.userPrompts| > 0
    ensures var sorted := Ordering.SortDesc(ss, Newest);
            && multiset(sorted) == multiset(ss)
            && Ordering.SortedDesc(sorted, Newest)
            && (forall a :: a in sorted ==> |a.userPrompts| > 0)
  {
    var sorted := Ordering.SortDesc(ss, Newest);
    forall a | a in sorted
      ensures |a.userPrompts| > 0
    {
      assert a in multiset(sorted);
    }
  }

  /**
   * What the summary promises: its sessions are exactly the kept ones, newest first, each with a
   * prompt; the prompt total agrees with the sessions, the hour histogram and the day tally; the
   * file totals sum each session's distinct files and the line total its lines; the day tally has
   * one entry for each day a kept session falls on; the projects are those of the sessions, each
   * once; the top tools are the six most used of the tally (all of them when fewer), most used
   * first.
   */
  lemma SummaryFacts(projects: seq<ProjectDir>, start: int, end: int, local: int -> LocalTime)
    ensures var kept := KeptSessions(projects, start, end);
            var s := ScanSummary(projects, start, end, local);
            var t := Aggregate(kept, local);
            && multiset(s.sessions) == multiset(kept)
            && Ordering.SortedDesc(s.sessions, Newest)
            && (forall a :: a in s.sessions ==> |a.userPrompts| > 0)
            && s.totalPrompts == PromptCount(kept)
            && s.totalFilesCreated == FilesCreatedCount(kept)
            && s.totalFilesModified == FilesModifiedCount(kept)
            && s.totalLinesWritten == LinesCount(kept)
            && |s.activityByHour| == 24
            && Sum(s.activityByHour) == s.totalPrompts
            && Total(s.activityByDay) == s.totalPrompts
            && UniqueKeys(s.activityByDay)
            && s.uniqueDaysActive == |Keys(s.activityByDay)|
            && s.uniqueDaysActive == |set a | a in kept :: DayKey(a, local)|
            && (set k | k in Keys(s.activityByDay)) == (set a | a in kept :: DayKey(a, local))
            && NoDuplicates(s.projectsWorkedOn)
            && (forall x :: x in s.projectsWorkedOn <==> exists a :: a in kept && a.project == x)
            && |s.topTools| == (if |t.toolUsage| < TopToolCount then |t.toolUsage| else TopToolCount)
            && Ordering.SortedDesc(s.topTools, ByCount)
            && (forall e :: e in s.topTools ==> e in t.toolUsage)
            && (forall e, f :: e in s.topTools && f in t.toolUsage && f !in s.topTools ==> f.1 <= e.1)
  {
    var kept := KeptSessions(projects, start, end);
    var t := Aggregate(kept, local);
    NoTotalsCoherent();
    FoldCoherent(NoTotals, kept, local);
    FoldSessionsRecords(NoTotals, kept, local);
    KeptSessionsHavePrompts(projects, start, end);
    assert t.sessions == kept;
    DaysActive(t, local);
    SessionsFacts(kept);
    TopToolsFacts(t.toolUsage);
  }

  // ---------------------------------------------------------------------------------------
  // Visualisation helpers
  // ---------------------------------------------------------------------------------------

  /** `Math.ceil((activity / maxActivity) * 4)`: a heatmap cell's shade, 0 (none) to 4 (full). */
  function Intensity(activity: nat, maxActivity: nat): (level: int)
    requires maxActivity >= 1
    ensures activity <= maxActivity ==> 0 <= level <= 4
    ensures level == 0 <==> activity == 0
    ensures activity == maxActivity ==> level == 4
  {
    CeilScale(activity, maxActivity, 4);
    Ceil(activity as real / maxActivity as real * 4.0)
  }

  /** Any day's count is at most `Math.max(...Object.values(activityByDay), 1)`. */
  lemma DayCountAtMostMax(counts: Counts, key: string)
    ensures Get(counts, key) <= MaxAtLeastOne(Values(counts))
  {
    GetIsValue(counts, key);
  }

  /** The cell for the day `daysAgo` days before today. */
  function HeatCell(counts: Counts, keyOfDaysAgo: nat -> string, daysAgo: nat): (cell: int)
    ensures 0 <= cell <= 4
    ensures cell == 0 <==> Get(counts, keyOfDaysAgo(daysAgo)) == 0
  {
    DayCountAtMostMax(counts, keyOfDaysAgo(daysAgo));
    Intensity(Get(counts, keyOfDaysAgo(daysAgo)), MaxAtLeastOne(Values(counts)))
  }

  /** The heatmap: none for a one-day range, one strip for a week, rows of seven otherwise. */
  datatype Heatmap = NoHeatmap | Strip(cells: seq<int>) | Grid(rows: seq<seq<int>>)

  function Flatten(rows: seq<seq<int>>): seq<int> {
    if rows == [] then [] else Flatten(rows[..|rows| - 1]) + rows[|rows| - 1]
  }

  function Min(a: int, b: int): int {
    if a < b then a else b
  }

  /** The month grid: `cells.slice(row * 7, (row + 1) * 7)` for each of `Math.ceil(cells.length / 7)` rows. */
  method GridRows(cells: seq<int>) returns (rows: seq<seq<int>>)
    ensures Flatten(rows) == cells
    ensures forall r :: 0 <= r < |rows| ==> 1 <= |rows[r]| <= 7
    ensures forall r :: 0 <= r < |rows| - 1 ==> |rows[r]| == 7
    ensures (|rows| - 1) * 7 < |cells| <= |rows| * 7
  {
    CeilWeeks(|cells|);
    var count := Ceil(|cells| as real / 7.0);
    rows := [];
    var row := 0;
    while row < count
      invariant 0 <= row <= count
      invariant |rows| == row
      invariant Flatten(rows) == cells[..Min(row * 7, |cells|)]
      invariant forall r :: 0 <= r < row ==> rows[r] == cells[r * 7..Min((r + 1) * 7, |cells|)]
    {
      var piece := cells[row * 7..Min((row + 1) * 7, |cells|)];
      assert cells[..Min((row + 1) * 7, |cells|)] == cells[..row * 7] + piece;
      assert (rows + [piece])[..row] == rows;
      rows := rows + [piece];
      row := row + 1;
    }
    assert cells[..Min(count * 7, |cells|)] == cells;
  }

  /** The cells of the last `days` days, oldest first and today last. */
  function DayCells(activityByDay: Counts, keyOfDaysAgo: nat -> string, days: nat): (cells: seq<int>)
    ensures |cells| == days
  {
    seq(days, k => DayCellAt(activityByDay, keyOfDaysAgo, days, k))
  }

  /** The cell in place `k`, counted from the oldest day. */
  function DayCellAt(activityByDay: Counts, keyOfDaysAgo: nat -> string, days: nat, k: int): int {
    if 0 <= k < days then HeatCell(activityByDay, keyOfDaysAgo, days - 1 - k) else 0
  }

  /** Each cell is a shade from 0 to 4, and 0 exactly on a day without prompts. */
  lemma DayCellsShades(activityByDay: Counts, keyOfDaysAgo: nat -> string, days: nat, k: nat)
    requires k < days
    ensures var cell := DayCells(activityByDay, keyOfDaysAgo, days)[k];
            && 0 <= cell <= 4
            && (cell == 0 <==> Get(activityByDay, keyOfDaysAgo(days - 1 - k)) == 0)
  {
    assert DayCells(activityByDay, keyOfDaysAgo, days)[k] == HeatCell(activityByDay, keyOfDaysAgo, days - 1 - k);
  }

  /** The heatmap's loop: one cell per day from `days - 1` days ago to today. */
  method HeatCells(activityByDay: Counts, keyOfDaysAgo: nat -> string, days: nat) returns (cells: seq<int>)
    ensures cells == DayCells(activityByDay, keyOfDaysAgo, days)
  {
    var maxActivity := MaxAtLeastOne(Values(activityByDay));
    cells := [];
    var i := days - 1;
    while i >= 0
      invariant -1 <= i < days
      invariant |cells| == days - 1 - i
      invariant forall k :: 0 <= k < |cells| ==> cells[k] == HeatCell(activityByDay, keyOfDaysAgo, days - 1 - k)
    {
      var activity := Get(activityByDay, keyOfDaysAgo(i));
      HeatCellIs(activityByDay, keyOfDaysAgo, i);
      HeatStep(cells, Intensity(activity, maxActivity), activityByDay, keyOfDaysAgo, days);
      cells := cells + [Intensity(activity, maxActivity)];
      i := i - 1;
    }
    CellsAreDayCells(cells, activityByDay, keyOfDaysAgo, days);
  }

  lemma HeatCellIs(counts: Counts, keyOfDaysAgo: nat -> string, daysAgo: nat)
    ensures HeatCell(counts, keyOfDaysAgo, daysAgo)
         == Intensity(Get(counts, keyOfDaysAgo(daysAgo)), MaxAtLeastOne(Values(counts)))
  {
  }

  lemma HeatStep(cells: seq<int>, cell: int, activityByDay: Counts, keyOfDaysAgo: nat -> string, days: nat)
    requires |cells| < days
    requires forall k :: 0 <= k < |cells| ==> cells[k] == HeatCell(activityByDay, keyOfDaysAgo, days - 1 - k)
    requires cell == HeatCell(activityByDay, keyOfDaysAgo, days - 1 - |cells|)
    ensures forall k :: 0 <= k < |cells| + 1 ==> (cells + [cell])[k] == HeatCell(activityByDay, keyOfDaysAgo, days - 1 - k)
  {
    forall k | 0 <= k < |cells| + 1
      ensures (cells + [cell])[k] == HeatCell(activityByDay, keyOfDaysAgo, days - 1 - k)
    {
      if k < |cells| {
        assert (cells + [cell])[k] == cells[k];
      } else {
        assert (cells + [cell])[k] == cell;
      }
    }
  }

  lemma CellsAreDayCells(cells: seq<int>, activityByDay: Counts, keyOfDaysAgo: nat -> string, days: nat)
    requires |cells| == days
    requires forall k :: 0 <= k < |cells| ==> cells[k] == HeatCell(activityByDay, keyOfDaysAgo, days - 1 - k)
    ensures cells == DayCells(activityByDay, keyOfDaysAgo, days)
  {
  }

  /**
   * createActivityHeatmap, with `keyOfDaysAgo(i)` the date key of the day `i` days before today.
   * Cells run from the oldest day to today.
   */
  method CreateActivityHeatmap(activityByDay: Counts, range: TimeRange, keyOfDaysAgo: nat -> string)
    returns (h: Heatmap)
    ensures h.NoHeatmap? <==> range == Today || range == Yesterday
    ensures range == Week ==> h == Strip(DayCells(activityByDay, keyOfDaysAgo, 7))
    ensures (range == Month || range == Custom) ==>
              (h.Grid? && |h.rows| == 5 && (forall r :: 0 <= r < 4 ==> |h.rows[r]| == 7)
               && Flatten(h.rows) == DayCells(activityByDay, keyOfDaysAgo, 30))
  {
    if range == Today || range == Yesterday {
      return NoHeatmap;
    }
    var days := if range == Week then 7 else 30;
    var cells := HeatCells(activityByDay, keyOfDaysAgo, days);
    if range == Week {
      return Strip(cells);
    }
    var rows := GridRows(cells);
    return Grid(rows);
  }

  /** `Math.round((activity / maxActivity) * 7)`: a bar's height, 0 to 7. */
  function BarLevel(activity: nat, maxActivity: nat): (level: int)
    requires maxActivity >= 1
    ensures activity <= maxActivity ==> 0 <= level <= 7
    ensures activity == 0 ==> level == 0
    ensures activity == maxActivity ==> level == 7
  {
    RoundScale(activity, maxActivity, 7);
    Round(activity as real / maxActivity as real * 7.0)
  }

  /** A busier hour never gets a shorter bar. */
  lemma BarLevelMonotone(a: nat, b: nat, maxActivity: nat)
    requires maxActivity >= 1 && a <= b
    ensures BarLevel(a, maxActivity) <= BarLevel(b, maxActivity)
  {
    assert a as real / maxActivity as real * 7.0 <= b as real / maxActivity as real * 7.0;
  }

  const FirstChartHour: nat := 6
  const ChartBars: nat := 18

  /** createHourlyChart: one bar per hour from 6am to 11pm, scaled to the busiest hour of the day. */
  method CreateHourlyChart(activityByHour: seq<nat>) returns (bars: seq<int>)
    requires |activityByHour| == 24
    ensures |bars| == ChartBars
    ensures forall k :: 0 <= k < ChartBars ==>
      bars[k] == BarLevel(activityByHour[FirstChartHour + k], MaxAtLeastOne(activityByHour))
    ensures forall k :: 0 <= k < ChartBars ==> 0 <= bars[k] <= 7
  {
    var maxActivity := MaxAtLeastOne(activityByHour);
    bars := [];
    var h := FirstChartHour;
    while h <= 23
      invariant FirstChartHour <= h <= 24
      invariant |bars| == h - FirstChartHour
      invariant forall k :: 0 <= k < |bars| ==> bars[k] == BarLevel(activityByHour[FirstChartHour + k], maxActivity)
      invariant forall k :: 0 <= k < |bars| ==> 0 <= bars[k] <= 7
    {
      bars := bars + [BarLevel(activityByHour[h], maxActivity)];
      h := h + 1;
    }
  }

  /** getMostProductiveHour's loop: the earliest hour with the strictly largest count, if any count is positive. */
  method MostProductiveHour(activityByHour: seq<nat>) returns (hour: Option<ResetParsing.HourOfDay>)
    requires |activityByHour| == 24
    ensures hour.None? <==> forall h :: 0 <= h < 24 ==> activityByHour[h] == 0
    ensures hour.Some? ==>
              (activityByHour[hour.value] > 0
               && (forall h :: 0 <= h < 24 ==> activityByHour[h] <= activityByHour[hour.value])
               && (forall h :: 0 <= h < hour.value ==> activityByHour[h] < activityByHour[hour.value]))
  {
    var maxHour: ResetParsing.HourOfDay := 0;
    var maxActivity := 0;
    var h := 0;
    while h < 24
      invariant 0 <= h <= 24
      invariant maxActivity == 0 ==> forall k :: 0 <= k < h ==> activityByHour[k] == 0
      invariant maxActivity > 0 ==> maxHour < h && activityByHour[maxHour] == maxActivity
      invariant forall k :: 0 <= k < h ==> activityByHour[k] <= maxActivity
      invariant forall k :: 0 <= k < maxHour ==> activityByHour[k] < maxActivity
    {
      if activityByHour[h] > maxActivity {
        maxActivity := activityByHour[h];
        maxHour := h;
      }
      h := h + 1;
    }
    if maxActivity == 0 {
      return None;
    }
    return Some(maxHour);
  }

  /** The 12-hour label, `${maxHour % 12 || 12}${maxHour >= 12 ? "pm" : "am"}`. */
  function HourLabel(hour: ResetParsing.HourOfDay): (text: string)
    ensures |text| >= 3 && text[|text| - 2..] == if hour >= 12 then "pm" else "am"
    ensures AllDigits(text[..|text| - 2]) && DecimalValue(text[..|text| - 2]) == ResetParsing.Hour12(hour)
  {
    var digits := NatToString(ResetParsing.Hour12(hour));
    var suffix := if hour >= 12 then "pm" else "am";
    NatToStringRoundTrip(ResetParsing.Hour12(hour));
    assert (digits + suffix)[..|digits|] == digits && (digits + suffix)[|digits|..] == suffix;
    digits + suffix
  }

  /** getMostProductiveHour's text: the label, or "—" when there was no activity. */
  function ProductiveHourText(hour: Option<ResetParsing.HourOfDay>): (text: string)
    ensures text == "—" <==> hour.None?
  {
    match hour
    case None => "—"
    case Some(h) => HourLabel(h)
  }

  /** The label reads back as its hour: digits, then a case-insensitive am/pm suffix. */
  lemma HourLabelReadBack(hour: ResetParsing.HourOfDay)
    ensures var text := HourLabel(hour);
            |text| >= 3 && AllDigits(text[..|text| - 2])
            && ResetParsing.To24Hour(DecimalValue(text[..|text| - 2]), text[|text| - 2..]) == hour
  {
    ResetParsing.Hour12To24(hour);
  }

  /** Different hours get different labels. */
  lemma HourLabelInjective(a: ResetParsing.HourOfDay, b: ResetParsing.HourOfDay)
    requires HourLabel(a) == HourLabel(b)
    ensures a == b
  {
    HourLabelReadBack(a);
    HourLabelReadBack(b);
  }

  /** getProductivityEmoji's tiers, lowest first: 🌱, 👍, ✨, ⚡, 🔥. */
  datatype Tier = Seedling | ThumbsUp | Sparkles | Zap | Fire

  function TierRank(t: Tier): nat {
    match t
    case Seedling => 0
    case ThumbsUp => 1
    case Sparkles => 2
    case Zap => 3
    case Fire => 4
  }

  /** The prompt counts at which each range reaches the next tier. */
  function Thresholds(range: TimeRange): (t: seq<nat>)
    ensures |t| == 4 && t[0] < t[1] < t[2] < t[3]
  {
    match range
    case Today => [5, 15, 30, 50]
    case Yesterday => [5, 15, 30, 50]
    case Week => [20, 50, 100, 200]
    case Month => [50, 150, 300, 500]
    case Custom => [20, 50, 100, 200]
  }

  function ProductivityTier(prompts: nat, range: TimeRange): (tier: Tier)
    ensures TierRank(tier) == Reached(prompts, Thresholds(range))
  {
    var t := Thresholds(range);
    TierReached(prompts, t);
    if prompts >= t[3] then Fire
    else if prompts >= t[2] then Zap
    else if prompts >= t[1] then Sparkles
    else if prompts >= t[0] then ThumbsUp
    else Seedling
  }

  /** How many of the thresholds the count reaches. */
  function Reached(prompts: nat, thresholds: seq<nat>): nat {
    if thresholds == [] then 0
    else (if prompts >= thresholds[0] then 1 else 0) + Reached(prompts, thresholds[1..])
  }

  /** Reaching thresholds in increasing order, the count reached is decided from the top down. */
  lemma TierReached(prompts: nat, t: seq<nat>)
    requires |t| == 4 && t[0] < t[1] < t[2] < t[3]
    ensures Reached(prompts, t) == if prompts >= t[3] then 4 else if prompts >= t[2] then 3
                                   else if prompts >= t[1] then 2 else if prompts >= t[0] then 1 else 0
  {
    assert t[3..][1..] == [];
    assert Reached(prompts, t[3..]) == (if prompts >= t[3] then 1 else 0);
    assert t[2..][1..] == t[3..];
    assert t[1..][1..] == t[2..];
    assert Reached(prompts, t[2..]) == (if prompts >= t[2] then 1 else 0) + Reached(prompts, t[3..]);
    assert Reached(prompts, t[1..]) == (if prompts >= t[1] then 1 else 0) + Reached(prompts, t[2..]);
  }

  lemma {:induction false} ReachedMonotone(p: nat, q: nat, thresholds: seq<nat>)
    requires p <= q
    ensures Reached(p, thresholds) <= Reached(q, thresholds)
  {
    if thresholds != [] {
      ReachedMonotone(p, q, thresholds[1..]);
    }
  }

  /** More prompts never give a lower tier. */
  lemma TierMonotone(p: nat, q: nat, range: TimeRange)
    requires p <= q
    ensures TierRank(ProductivityTier(p, range)) <= TierRank(ProductivityTier(q, range))
  {
    ReachedMonotone(p, q, Thresholds(range));
  }
}
