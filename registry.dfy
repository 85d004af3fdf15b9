/**
 * The registry of Claude-built items: the item records, their recency order, the usage
 * counts and the favourites kept beside the registry file, relative times, tilde expansion
 * and the markdown shown for an item. Reading and writing the JSON files are left out: a
 * store's contents are modelled as the value the file holds, and the clock and the date
 * parser are inputs.
 */
module Registry {
  import opened Wrappers
  import opened Text
  import Ordering

  datatype ItemType = Skill | Cli | Raycast | Alias | Tool

  datatype ExecutionType = InTerminal | RaycastDeeplink | Shell | OpenPath

  datatype Execution = Execution(kind: ExecutionType, command: Option<string>,
                                 args: Option<seq<string>>, deeplink: Option<string>)

  datatype RegistryItem = RegistryItem(
    id: string, itemType: ItemType, name: string, description: string, path: string,
    trigger: Option<string>, createdAt: string, updatedAt: Option<string>,
    lastUsed: Option<string>, useCount: int, tags: seq<string>, execution: Execution)

  datatype RegistryFile = RegistryFile(version: string, generatedAt: string,
                                       items: seq<RegistryItem>)

  /** The type's name as the registry file spells it. */
  function TypeName(t: ItemType): string {
    match t
    case Skill => "skill"
    case Cli => "cli"
    case Raycast => "raycast"
    case Alias => "alias"
    case Tool => "tool"
  }

  lemma TypeNameInjective(a: ItemType, b: ItemType)
    ensures TypeName(a) == TypeName(b) <==> a == b
  {
    assert "skill"[0] != "cli"[0] && "skill"[0] != "raycast"[0] && "skill"[0] != "alias"[0];
    assert "skill"[0] != "tool"[0] && "cli"[0] != "raycast"[0] && "cli"[0] != "alias"[0];
    assert "cli"[0] != "tool"[0] && "raycast"[0] != "alias"[0] && "raycast"[0] != "tool"[0];
    assert "alias"[0] != "tool"[0];
  }

  /** `item.updated_at || item.created_at`. */
  function Modified(item: RegistryItem): string {
    OrElse(item.updatedAt, item.createdAt)
  }

  /** The comparator of sortByRecency as a key: modification time, then use count. */
  function RecencyKey(timeOf: string -> int): RegistryItem -> Ordering.Key {
    item => Ordering.Key(timeOf(Modified(item)), item.useCount)
  }

  /**
   * sortByRecency: a sorted copy, most recently modified first, ties broken by the larger use
   * count. `timeOf` is `new Date(s).getTime()`.
   */
  function SortByRecency(items: seq<RegistryItem>, timeOf: string -> int): (sorted: seq<RegistryItem>)
    ensures multiset(sorted) == multiset(items)
    ensures forall i, j :: 0 <= i < j < |sorted| ==>
              timeOf(Modified(sorted[i])) > timeOf(Modified(sorted[j]))
              || (timeOf(Modified(sorted[i])) == timeOf(Modified(sorted[j]))
                  && sorted[i].useCount >= sorted[j].useCount)
  {
    Ordering.SortDesc(items, RecencyKey(timeOf))
  }

  /** Items with the same time and use count keep their order in the registry file. */
  lemma SortByRecencyStable(items: seq<RegistryItem>, timeOf: string -> int, k: Ordering.Key)
    ensures Ordering.WithKey(SortByRecency(items, timeOf), RecencyKey(timeOf), k)
         == Ordering.WithKey(items, RecencyKey(timeOf), k)
  {
    Ordering.SortDescStable(items, RecencyKey(timeOf), k);
  }

  // ---------------------------------------------------------------------------------------
  // Usage counts

  datatype UsageEntry = UsageEntry(lastUsed: string, useCount: int)

  type UsageData = map<string, UsageEntry>

  /** The usage data after updateUsage(itemId) at time `now`. */
  function Bumped(usage: UsageData, itemId: string, now: string): (r: UsageData)
    ensures r.Keys == usage.Keys + {itemId}
    ensures r[itemId].lastUsed == now
    ensures itemId in usage ==> r[itemId].useCount == usage[itemId].useCount + 1
    ensures itemId !in usage ==> r[itemId].useCount == 1
    ensures forall id :: id in usage && id != itemId ==> r[id] == usage[id]
  {
    var existing := if itemId in usage then usage[itemId].useCount else 0;
    usage[itemId := UsageEntry(now, existing + 1)]
  }

  /** The usage data after the updates `ids`, in order, starting from `usage`. */
  function Replay(usage: UsageData, ids: seq<string>, now: string): UsageData {
    if ids == [] then usage else Bumped(Replay(usage, ids[..|ids| - 1], now), ids[|ids| - 1], now)
  }

  function Occurrences(ids: seq<string>, id: string): nat {
    if ids == [] then 0
    else Occurrences(ids[..|ids| - 1], id) + (if ids[|ids| - 1] == id then 1 else 0)
  }

  /** Starting from no usage file, an item's count is the number of times it was executed. */
  lemma {:induction false} UseCountCountsExecutions(ids: seq<string>, id: string, now: string)
    ensures id in Replay(map[], ids, now) <==> Occurrences(ids, id) > 0
    ensures id in Replay(map[], ids, now) ==> Replay(map[], ids, now)[id].useCount == Occurrences(ids, id)
  {
    if ids != [] {
      UseCountCountsExecutions(ids[..|ids| - 1], id, now);
    }
  }

  /** The usage file: a dictionary from item id to last use and count. */
  class UsageFile {
    var usage: UsageData

    /** The file's contents when it exists, else an empty dictionary. */
    constructor(stored: Option<UsageData>)
      ensures usage == if stored.Some? then stored.value else map[]
    {
      usage := if stored.Some? then stored.value else map[];
    }

    /** updateUsage: the item's count grows by one and its last use becomes `now`. */
    method UpdateUsage(itemId: string, now: string)
      modifies this
      ensures usage == Bumped(old(usage), itemId, now)
    {
      var existing := if itemId in usage then usage[itemId].useCount else 0;
      usage := usage[itemId := UsageEntry(now, existing + 1)];
    }
  }

  // ---------------------------------------------------------------------------------------
  // Favourites

  /** The favourites file: a set of item ids. */
  class FavoritesFile {
    var saved: set<string>

    /** loadFavorites: the ids the file lists, or none when it is missing. */
    constructor(stored: Option<seq<string>>)
      ensures saved == if stored.Some? then set id | id in stored.value else {}
    {
      saved := if stored.Some? then set id | id in stored.value else {};
    }

    /** addFavorite: the id joins the saved set; adding a favourite twice changes nothing. */
    method AddFavorite(itemId: string) returns (favorites: set<string>)
      modifies this
      ensures saved == old(saved) + {itemId} && favorites == saved
      ensures itemId in old(saved) ==> saved == old(saved)
    {
      saved := saved + {itemId};
      favorites := saved;
    }

    /** removeFavorite: the id leaves the saved set, every other id stays. */
    method RemoveFavorite(itemId: string) returns (favorites: set<string>)
      modifies this
      ensures saved == old(saved) - {itemId} && favorites == saved
      ensures itemId !in old(saved) ==> saved == old(saved)
    {
      saved := saved - {itemId};
      favorites := saved;
    }

    /** isFavorite. */
    predicate IsFavorite(itemId: string)
      reads this
    {
      itemId in saved
    }
  }

  // ---------------------------------------------------------------------------------------
  // Relative time

  const MinuteMs := 60_000
  const HourMs := 3_600_000
  const DayMs := 86_400_000

  datatype Ago = JustNow | MinutesAgo(n: int) | HoursAgo(n: int) | Yesterday | DaysAgo(n: int)
               | WeeksAgo(n: int) | MonthsAgo(n: int) | LocaleDate

  /**
   * getRelativeTime's choice for a date `diffMs` milliseconds before now. Every unit is the
   * floor of the one below it, as `Math.floor` on a positive divisor.
   */
  function AgoOf(diffMs: int): (a: Ago)
    ensures a == JustNow <==> diffMs < MinuteMs
    ensures a.MinutesAgo? ==> 1 <= a.n < 60
    ensures a.HoursAgo? ==> 1 <= a.n < 24
    ensures a.DaysAgo? ==> 2 <= a.n < 7
    ensures a.WeeksAgo? ==> 1 <= a.n < 4
    ensures a.MonthsAgo? ==> 0 <= a.n < 12
  {
    var secs := diffMs / 1000;
    var mins := secs / 60;
    var hours := mins / 60;
    var days := hours / 24;
    var weeks := days / 7;
    var months := days / 30;
    if secs < 60 then JustNow
    else if mins < 60 then MinutesAgo(mins)
    else if hours < 24 then HoursAgo(hours)
    else if days == 1 then Yesterday
    else if days < 7 then DaysAgo(days)
    else if weeks < 4 then WeeksAgo(weeks)
    else if months < 12 then MonthsAgo(months)
    else LocaleDate
  }

  /** The interval each description covers. */
  lemma AgoOfBounds(diffMs: int)
    ensures var a := AgoOf(diffMs);
            && (a == JustNow <==> diffMs < MinuteMs)
            && (a.MinutesAgo? ==> 1 <= a.n < 60 && a.n * MinuteMs <= diffMs < (a.n + 1) * MinuteMs)
            && (a.HoursAgo? ==> 1 <= a.n < 24 && a.n * HourMs <= diffMs < (a.n + 1) * HourMs)
            && (a == Yesterday <==> DayMs <= diffMs < 2 * DayMs)
            && (a.DaysAgo? ==> 2 <= a.n < 7 && a.n * DayMs <= diffMs < (a.n + 1) * DayMs)
            && (a.WeeksAgo? ==> 1 <= a.n < 4 && a.n * 7 * DayMs <= diffMs < (a.n + 1) * 7 * DayMs)
            && (a.MonthsAgo? ==> (0 <= a.n < 12 && 28 * DayMs <= diffMs
                                  && a.n * 30 * DayMs <= diffMs < (a.n + 1) * 30 * DayMs))
            && (a == LocaleDate <==> diffMs >= 360 * DayMs)
  {
    AgoOfUnits(diffMs);
    var days := diffMs / DayMs;
    DivBounds(diffMs, MinuteMs);
    DivBounds(diffMs, HourMs);
    DivBounds(diffMs, DayMs);
    DivBounds(days, 7);
    DivBounds(days, 30);
  }

  /** The choice, restated on the number of whole minutes, hours and days. */
  lemma AgoOfUnits(diffMs: int)
    ensures var mins, hours, days := diffMs / MinuteMs, diffMs / HourMs, diffMs / DayMs;
            AgoOf(diffMs) ==
              if mins < 1 then JustNow
              else if mins < 60 then MinutesAgo(mins)
              else if hours < 24 then HoursAgo(hours)
              else if days == 1 then Yesterday
              else if days < 7 then DaysAgo(days)
              else if days / 7 < 4 then WeeksAgo(days / 7)
              else if days / 30 < 12 then MonthsAgo(days / 30)
              else LocaleDate
  {
    FloorChain(diffMs);
  }

  /** Flooring unit by unit is flooring by the product of the units. */
  lemma FloorChain(ms: int)
    ensures ms / 1000 / 60 == ms / MinuteMs
    ensures ms / 1000 / 60 / 60 == ms / HourMs
    ensures ms / 1000 / 60 / 60 / 24 == ms / DayMs
  {
  }

  /** `Math.floor(x / u)` counts the whole units in `x`. */
  lemma DivBounds(x: int, u: int)
    requires u > 0
    ensures (x / u) * u <= x < (x / u + 1) * u
  {
  }

  /** The text getRelativeTime returns; `localeDate` is the date's `toLocaleDateString()`. */
  function RelativeTime(diffMs: int, localeDate: string): (text: string)
    ensures diffMs < MinuteMs ==> text == "just now"
    ensures MinuteMs <= diffMs < HourMs ==> text == IntToString(diffMs / MinuteMs) + "m ago"
    ensures HourMs <= diffMs < DayMs ==> text == IntToString(diffMs / HourMs) + "h ago"
    ensures DayMs <= diffMs < 2 * DayMs ==> text == "yesterday"
    ensures 2 * DayMs <= diffMs < 7 * DayMs ==> text == IntToString(diffMs / DayMs) + "d ago"
    ensures 7 * DayMs <= diffMs < 28 * DayMs ==> text == IntToString(diffMs / DayMs / 7) + "w ago"
    ensures 28 * DayMs <= diffMs < 360 * DayMs ==> text == IntToString(diffMs / DayMs / 30) + "mo ago"
    ensures diffMs >= 360 * DayMs ==> text == localeDate
  {
    AgoOfBounds(diffMs);
    AgoOfUnits(diffMs);
    match AgoOf(diffMs)
    case JustNow => "just now"
    case MinutesAgo(n) => IntToString(n) + "m ago"
    case HoursAgo(n) => IntToString(n) + "h ago"
    case Yesterday => "yesterday"
    case DaysAgo(n) => IntToString(n) + "d ago"
    case WeeksAgo(n) => IntToString(n) + "w ago"
    case MonthsAgo(n) => IntToString(n) + "mo ago"
    case LocaleDate => localeDate
  }

  /** How far back each choice lies. */
  function AgoRank(a: Ago): nat {
    match a
    case JustNow => 0
    case MinutesAgo(_) => 1
    case HoursAgo(_) => 2
    case Yesterday => 3
    case DaysAgo(_) => 4
    case WeeksAgo(_) => 5
    case MonthsAgo(_) => 6
    case LocaleDate => 7
  }

  /** An older date never gets a more recent description. */
  lemma AgoMonotone(d1: int, d2: int)
    requires d1 <= d2
    ensures AgoRank(AgoOf(d1)) <= AgoRank(AgoOf(d2))
    ensures AgoOf(d1).MinutesAgo? && AgoOf(d2).MinutesAgo? ==> AgoOf(d1).n <= AgoOf(d2).n
  {
    AgoOfUnits(d1);
    AgoOfUnits(d2);
  }

  /** A future date, and anything under a minute old, is "just now". */
  lemma FutureIsJustNow(diffMs: int, localeDate: string)
    requires diffMs < MinuteMs
    ensures RelativeTime(diffMs, localeDate) == "just now"
  {
  }

  /** Past four weeks the month count is floored by 30 days, so 28 and 29 days read "0mo ago". */
  lemma FourWeeksIsZeroMonths(diffMs: int, localeDate: string)
    requires 28 * DayMs <= diffMs < 30 * DayMs
    ensures RelativeTime(diffMs, localeDate) == "0mo ago"
  {
    var a := AgoOf(diffMs);
    assert a.MonthsAgo? && a.n == 0;
    assert IntToString(0) == "0";
  }

  // ---------------------------------------------------------------------------------------
  // Paths

  /** expandPath: `filePath.replace(/~/g, home)`, every tilde and not only a leading one. */
  function ExpandPath(filePath: string, home: string): (r: string)
    ensures |r| == |filePath| + CountChar(filePath, '~') * (|home| - 1)
    ensures '~' !in filePath ==> r == filePath
  {
    ReplaceCharLength(filePath, '~', home);
    if '~' in filePath then ReplaceChar(filePath, '~', home)
    else
      ReplaceCharAbsent(filePath, '~', home);
      ReplaceChar(filePath, '~', home)
  }

  /** With a home directory free of tildes nothing is left to expand, so expanding twice is once. */
  lemma ExpandPathIdempotent(filePath: string, home: string)
    requires '~' !in home
    ensures '~' !in ExpandPath(filePath, home)
    ensures ExpandPath(ExpandPath(filePath, home), home) == ExpandPath(filePath, home)
  {
    ReplaceCharRemovesAll(filePath, '~', home);
    ReplaceCharAbsent(ExpandPath(filePath, home), '~', home);
  }

  /** Every tilde is expanded where it stands, not only a leading one. */
  lemma {:induction false} ExpandPathEveryTilde(before: string, after: string, home: string)
    ensures ExpandPath(before + "~" + after, home)
         == ExpandPath(before, home) + home + ExpandPath(after, home)
  {
    if before == [] {
      assert before + "~" + after == ['~'] + after;
    } else {
      assert (before + "~" + after)[1..] == before[1..] + "~" + after;
      ExpandPathEveryTilde(before[1..], after, home);
    }
  }

  /** getFolderPath: the directory of the expanded path; `dirname` is Node's `path.dirname`. */
  function GetFolderPath(filePath: string, home: string, dirname: string -> string): (folder: string)
    ensures '~' !in filePath ==> folder == dirname(filePath)
  {
    dirname(ExpandPath(filePath, home))
  }

  /** A path that was already expanded has the same folder as the original. */
  lemma GetFolderPathOfExpanded(filePath: string, home: string, dirname: string -> string)
    requires '~' !in home
    ensures GetFolderPath(ExpandPath(filePath, home), home, dirname)
         == GetFolderPath(filePath, home, dirname)
  {
    ExpandPathIdempotent(filePath, home);
  }

  // ---------------------------------------------------------------------------------------
  // Markdown

  /** `execution.command || execution.deeplink || ""`. */
  function ExecutionLine(e: Execution): (line: string)
    ensures e.command.Some? && e.command.value != "" ==> line == e.command.value
    ensures (e.command.None? || e.command.value == "") && e.deeplink.Some? && e.deeplink.value != ""
            ==> line == e.deeplink.value
    ensures line == "" <==> (e.command.None? || e.command.value == "")
                            && (e.deeplink.None? || e.deeplink.value == "")
  {
    OrElse(e.command, OrElse(e.deeplink, ""))
  }

  /** The lines itemToMarkdown lists, `null` for an absent trigger. */
  function MarkdownCandidates(item: RegistryItem): seq<Option<string>> {
    [ Some("# " + item.name),
      Some(""),
      Some("**Type:** " + TypeName(item.itemType)),
      Some("**Path:** `" + item.path + "`"),
      if item.trigger.Some? && item.trigger.value != ""
      then Some("**Trigger:** `" + item.trigger.value + "`") else None,
      Some(""),
      Some("## Description"),
      Some(item.description),
      Some(""),
      Some("## Execution"),
      Some("```"),
      Some(ExecutionLine(item.execution)),
      Some("```"),
      Some(""),
      Some("**Tags:** " + Join(item.tags, ", ")) ]
  }

  /** `filter(Boolean)`: drops the nulls and the empty strings, keeps the rest in order. */
  function KeepTruthy(lines: seq<Option<string>>): (kept: seq<string>)
    ensures forall i :: 0 <= i < |kept| ==> kept[i] != ""
    ensures forall line :: line in kept <==> line != "" && Some(line) in lines
  {
    if lines == [] then []
    else
      var rest := KeepTruthy(lines[1..]);
      assert lines == [lines[0]] + lines[1..];
      if lines[0].Some? && lines[0].value != "" then [lines[0].value] + rest else rest
  }

  /**
   * The filter works line by line: a single line is kept exactly when it is a non-empty string,
   * and the lines of a concatenation are those of its parts, in order and with repeats.
   */
  lemma {:induction false} KeepTruthyAppend(a: seq<Option<string>>, b: seq<Option<string>>)
    ensures KeepTruthy(a + b) == KeepTruthy(a) + KeepTruthy(b)
    ensures forall x :: KeepTruthy([x]) == if x.Some? && x.value != "" then [x.value] else []
  {
    if a == [] {
      assert a + b == b;
    } else {
      assert (a + b)[0] == a[0] && (a + b)[1..] == a[1..] + b;
      KeepTruthyAppend(a[1..], b);
      if a[0].Some? && a[0].value != "" {
        assert [a[0].value] + (KeepTruthy(a[1..]) + KeepTruthy(b))
            == [a[0].value] + KeepTruthy(a[1..]) + KeepTruthy(b);
      }
    }
    forall x
      ensures KeepTruthy([x]) == if x.Some? && x.value != "" then [x.value] else []
    {
      assert [x][1..] == [];
    }
  }

  function MarkdownLines(item: RegistryItem): seq<string> {
    KeepTruthy(MarkdownCandidates(item))
  }

  /** itemToMarkdown. */
  function ItemToMarkdown(item: RegistryItem): (md: string)
    ensures (forall line :: line in MarkdownLines(item) ==> '\n' !in line)
            ==> Split(md, '\n') == MarkdownLines(item)
  {
    var lines := MarkdownLines(item);
    HeadingKept(item);
    if forall line :: line in lines ==> '\n' !in line then
      JoinSplit(lines, '\n');
      Join(lines, "\n")
    else Join(lines, "\n")
  }

  /**
   * What survives the filter: the heading first, the execution line whenever it is non-empty,
   * the trigger line whenever the trigger is non-empty, and no empty line.
   */
  lemma MarkdownLinesKeep(item: RegistryItem)
    ensures MarkdownLines(item) != [] && MarkdownLines(item)[0] == "# " + item.name
    ensures ExecutionLine(item.execution) != "" ==> ExecutionLine(item.execution) in MarkdownLines(item)
    ensures item.trigger.Some? && item.trigger.value != ""
            ==> "**Trigger:** `" + item.trigger.value + "`" in MarkdownLines(item)
    ensures "" !in MarkdownLines(item)
  {
    HeadingKept(item);
    ExecutionKept(item);
    TriggerKept(item);
  }

  lemma HeadingKept(item: RegistryItem)
    ensures MarkdownLines(item) != [] && MarkdownLines(item)[0] == "# " + item.name
  {
    var c := MarkdownCandidates(item);
    var heading := "# " + item.name;
    assert c[0] == Some(heading) && heading[0] == '#';
    KeepTruthyHead(c);
  }

  lemma ExecutionKept(item: RegistryItem)
    ensures ExecutionLine(item.execution) != "" ==> ExecutionLine(item.execution) in MarkdownLines(item)
  {
    var c := MarkdownCandidates(item);
    assert c[11] == Some(ExecutionLine(item.execution));
  }

  lemma TriggerKept(item: RegistryItem)
    ensures item.trigger.Some? && item.trigger.value != ""
            ==> "**Trigger:** `" + item.trigger.value + "`" in MarkdownLines(item)
  {
    var c := MarkdownCandidates(item);
    if item.trigger.Some? && item.trigger.value != "" {
      assert c[4] == Some("**Trigger:** `" + item.trigger.value + "`");
    }
  }

  /** A non-empty first line survives the filter in first place. */
  lemma KeepTruthyHead(lines: seq<Option<string>>)
    requires lines != [] && lines[0].Some? && lines[0].value != ""
    ensures KeepTruthy(lines) != [] && KeepTruthy(lines)[0] == lines[0].value
  {
  }
}
