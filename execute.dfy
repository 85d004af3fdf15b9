/**
 * Running a Claude-built item: the terminal app chosen, the effects of executing an item, the
 * command typed into the terminal with its quoting, the folder commands and the editor
 * fallback chain. Which apps are installed and which commands succeed are inputs; effects are
 * returned in the order the source performs them.
 */
module Execute {
  import opened Wrappers
  import opened Text
  import opened Registry

  /** An effect on the outside world, in the order it happens. */
  datatype Effect =
    | RecordUsage(itemId: string)      // updateUsage
    | Run(command: string)             // execAsync of a shell command line
    | OpenTarget(target: string)       // Raycast's open()
    | Copy(text: string)               // Clipboard.copy
    | Hud(message: string)             // showHUD

  const TerminalApps: seq<string> := ["Ghostty", "iTerm", "Terminal"]
  const DefaultTerminal := "Terminal"

  /** The first of `apps` that is installed, else `fallback`. */
  function FirstInstalled(apps: seq<string>, installed: string -> bool, fallback: string): (app: string)
    ensures forall k :: (0 <= k < |apps| && installed(apps[k])
                         && (forall j :: 0 <= j < k ==> !installed(apps[j]))) ==> app == apps[k]
    ensures (forall k :: 0 <= k < |apps| ==> !installed(apps[k])) ==> app == fallback
  {
    if apps == [] then fallback
    else if installed(apps[0]) then apps[0]
    else
      var app := FirstInstalled(apps[1..], installed, fallback);
      assert forall k :: 1 <= k < |apps| ==> apps[k] == apps[1..][k - 1];
      app
  }

  /** getTerminalApp: Ghostty, iTerm, Terminal, the first whose bundle exists, else Terminal. */
  method GetTerminalApp(installed: string -> bool) returns (app: string)
    ensures app == FirstInstalled(TerminalApps, installed, DefaultTerminal)
  {
    var i := 0;
    while i < |TerminalApps|
      invariant 0 <= i <= |TerminalApps|
      invariant FirstInstalled(TerminalApps[i..], installed, DefaultTerminal)
             == FirstInstalled(TerminalApps, installed, DefaultTerminal)
    {
      if installed(TerminalApps[i]) {
        return TerminalApps[i];
      }
      assert TerminalApps[i..][1..] == TerminalApps[i + 1..];
      i := i + 1;
    }
    return DefaultTerminal;
  }

  /** The chosen app is installed, or none is and it is Terminal. */
  lemma TerminalAppInstalled(installed: string -> bool)
    ensures var app := FirstInstalled(TerminalApps, installed, DefaultTerminal);
            installed(app) || (app == DefaultTerminal && !installed("Ghostty") && !installed("iTerm"))
  {
  }

  // ---------------------------------------------------------------------------------------
  // Quoting

  /** `s.replace(/'/g, "'\\''")`: each quote closes the quoted text, adds `\'` and reopens it. */
  function EscapeQuotes(s: string): (e: string)
    ensures |e| == |s| + 3 * CountChar(s, '\'')
    ensures '\'' !in s ==> e == s
  {
    ReplaceCharLength(s, '\'', "'\\''");
    if '\'' in s then ReplaceChar(s, '\'', "'\\''")
    else
      ReplaceCharAbsent(s, '\'', "'\\''");
      ReplaceChar(s, '\'', "'\\''")
  }

  /**
   * How a POSIX shell reads a word: inside single quotes every character is literal up to the
   * closing quote; outside, a backslash takes the next character literally.
   */
  function ShellWord(s: string, quoted: bool): string {
    if s == [] then []
    else if quoted then
      if s[0] == '\'' then ShellWord(s[1..], false) else [s[0]] + ShellWord(s[1..], true)
    else if s[0] == '\'' then ShellWord(s[1..], true)
    else if s[0] == '\\' && |s| >= 2 then [s[1]] + ShellWord(s[2..], false)
    else [s[0]] + ShellWord(s[1..], false)
  }

  /** The escape `'\''` of one quote reads, inside quotes, as that quote. */
  lemma EscapedQuoteRead(rest: string)
    ensures ShellWord("'\\''" + rest, true) == "'" + ShellWord(rest, true)
  {
    var t := "'\\''" + rest;
    assert t[0] == '\'' && t[1..] == "\\''" + rest;
    var u := "\\''" + rest;
    assert u[0] == '\\' && u[1] == '\'' && u[2..] == "'" + rest;
    var v := "'" + rest;
    assert v[0] == '\'' && v[1..] == rest;
    assert ShellWord(t, true) == ShellWord(u, false);
    assert ShellWord(u, false) == "'" + ShellWord(v, false);
    assert ShellWord(v, false) == ShellWord(rest, true);
  }

  /** Any other character reads, inside quotes, as itself. */
  lemma PlainCharRead(c: char, rest: string)
    requires c != '\''
    ensures ShellWord([c] + rest, true) == [c] + ShellWord(rest, true)
  {
    assert ([c] + rest)[1..] == rest;
  }

  lemma {:induction false} EscapeQuotesRead(s: string, tail: string)
    ensures ShellWord(EscapeQuotes(s) + tail, true) == s + ShellWord(tail, true)
  {
    if s == [] {
      assert EscapeQuotes(s) + tail == tail;
    } else {
      EscapeQuotesRead(s[1..], tail);
      var rest := EscapeQuotes(s[1..]) + tail;
      if s[0] == '\'' {
        assert EscapeQuotes(s) + tail == "'\\''" + rest;
        EscapedQuoteRead(rest);
      } else {
        assert EscapeQuotes(s) + tail == [s[0]] + rest;
        PlainCharRead(s[0], rest);
      }
      assert s == [s[0]] + s[1..];
    }
  }

  /** Wrapped in single quotes, the escaped text reads back, to the shell, as the original. */
  lemma SingleQuotedRoundTrip(s: string)
    ensures ShellWord("'" + EscapeQuotes(s) + "'", false) == s
  {
    EscapeQuotesRead(s, "'");
    assert ("'" + EscapeQuotes(s) + "'")[1..] == EscapeQuotes(s) + "'";
    assert ShellWord("'", true) == [];
  }

  /** The AppleScript executeInTerminal runs: bring the terminal forward, type the command. */
  function TerminalScript(terminal: string, typed: string): string {
    "\n    tell application \"" + terminal + "\"\n      activate\n    end tell\n    delay 0.3\n"
    + "    tell application \"System Events\"\n      keystroke \"" + typed + "\"\n"
    + "      keystroke return\n    end tell\n  "
  }

  /**
   * executeInTerminal: every `~` becomes the home directory, every quote is escaped for the
   * keystrokes, and the script is escaped again as osascript's single-quoted argument; the
   * shell hands osascript exactly the script, whatever quotes the command held.
   */
  function TerminalCommand(command: string, home: string, terminal: string): (c: string)
    ensures var prefix := "osascript -e ";
            |prefix| < |c| && c[..|prefix|] == prefix
            && ShellWord(c[|prefix|..], false)
               == TerminalScript(terminal, EscapeQuotes(ExpandPath(command, home)))
  {
    var script := TerminalScript(terminal, EscapeQuotes(ExpandPath(command, home)));
    SingleQuotedRoundTrip(script);
    "osascript -e " + ("'" + EscapeQuotes(script) + "'")
  }

  method ExecuteInTerminal(command: string, home: string, installed: string -> bool)
    returns (effect: Effect)
    ensures effect == Run(TerminalCommand(command, home, FirstInstalled(TerminalApps, installed, DefaultTerminal)))
  {
    var terminal := GetTerminalApp(installed);
    effect := Run(TerminalCommand(command, home, terminal));
  }

  // ---------------------------------------------------------------------------------------
  // Executing an item

  /**
   * executeItem: usage is recorded first, for every kind of execution; a deeplink or shell
   * item without its deeplink or command does nothing more.
   */
  method ExecuteItem(item: RegistryItem, home: string, installed: string -> bool)
    returns (effects: seq<Effect>)
    ensures effects != [] && effects[0] == RecordUsage(item.id)
    ensures forall k :: 1 <= k < |effects| ==> !effects[k].RecordUsage?
    ensures item.execution.kind == InTerminal ==>
              effects == [RecordUsage(item.id),
                          Run(TerminalCommand(OrElse(item.execution.command, ""), home,
                                              FirstInstalled(TerminalApps, installed, DefaultTerminal))),
                          Hud("Launched " + item.name)]
    ensures item.execution.kind == RaycastDeeplink ==>
              effects == [RecordUsage(item.id)]
                         + (if OrElse(item.execution.deeplink, "") != ""
                            then [OpenTarget(item.execution.deeplink.value)] else [])
    ensures item.execution.kind == Shell ==>
              effects == [RecordUsage(item.id)]
                         + (if OrElse(item.execution.command, "") != ""
                            then [Copy(item.execution.command.value),
                                  Hud("Copied: " + item.execution.command.value)] else [])
    ensures item.execution.kind == OpenPath ==>
              effects == [RecordUsage(item.id), Run("open \"" + ExpandPath(item.path, home) + "\""),
                          Hud("Opened " + item.name)]
  {
    effects := [RecordUsage(item.id)];
    var execution := item.execution;
    match execution.kind {
      case InTerminal =>
        var run := ExecuteInTerminal(OrElse(execution.command, ""), home, installed);
        effects := effects + [run, Hud("Launched " + item.name)];
      case RaycastDeeplink =>
        if execution.deeplink.Some? && execution.deeplink.value != "" {
          effects := effects + [OpenTarget(execution.deeplink.value)];
        }
      case Shell =>
        if execution.command.Some? && execution.command.value != "" {
          effects := effects + [Copy(execution.command.value), Hud("Copied: " + execution.command.value)];
        }
      case OpenPath =>
        var expandedPath := ExpandPath(item.path, home);
        effects := effects + [Run("open \"" + expandedPath + "\""), Hud("Opened " + item.name)];
    }
  }

  // ---------------------------------------------------------------------------------------
  // Folder commands

  function CdCommand(folder: string): string {
    "cd \"" + folder + "\""
  }

  /** The command of openInClaudeCode. */
  function ClaudeCommand(folder: string): string {
    CdCommand(folder) + " && claude"
  }

  /** The command of viewGitHistory. */
  function GitHistoryCommand(folder: string, filename: string): string {
    CdCommand(folder) + " && git log --oneline -20 \"" + filename + "\""
  }

  /** The text up to the first double quote. */
  function UpToQuote(s: string): (r: string)
    ensures '"' !in r && |r| <= |s| && r == s[..|r|]
    ensures |r| == |s| || s[|r|] == '"'
  {
    if s == [] || s[0] == '"' then [] else [s[0]] + UpToQuote(s[1..])
  }

  /** The folder a command changes into: what follows `cd "` up to the next quote. */
  function CdTarget(command: string): Option<string> {
    if |command| >= 4 && command[..4] == "cd \"" then Some(UpToQuote(command[4..])) else None
  }

  lemma {:induction false} UpToQuoteOf(w: string, tail: string)
    requires '"' !in w
    ensures UpToQuote(w + "\"" + tail) == w
  {
    if w != [] {
      assert (w + "\"" + tail)[1..] == w[1..] + "\"" + tail;
      UpToQuoteOf(w[1..], tail);
    } else {
      assert (w + "\"" + tail)[0] == '"';
    }
  }

  /** Every folder command changes into its folder, when the folder holds no double quote. */
  lemma FolderCommandsTarget(folder: string, filename: string)
    requires '"' !in folder
    ensures CdTarget(CdCommand(folder)) == Some(folder)
    ensures CdTarget(ClaudeCommand(folder)) == Some(folder)
    ensures CdTarget(GitHistoryCommand(folder, filename)) == Some(folder)
  {
    var tails := ["", " && claude", " && git log --oneline -20 \"" + filename + "\""];
    assert CdCommand(folder) == "cd \"" + folder + "\"" + tails[0];
    assert ClaudeCommand(folder) == "cd \"" + folder + "\"" + tails[1];
    assert GitHistoryCommand(folder, filename) == "cd \"" + folder + "\"" + tails[2];
    forall t | t in tails
      ensures CdTarget("cd \"" + folder + "\"" + t) == Some(folder)
    {
      var c := "cd \"" + folder + "\"" + t;
      assert c[..4] == "cd \"";
      assert c[4..] == folder + "\"" + t;
      UpToQuoteOf(folder, t);
    }
  }

  /** openFolderInTerminal. */
  method OpenFolderInTerminal(itemPath: string, home: string, dirname: string -> string,
                              installed: string -> bool) returns (effects: seq<Effect>)
    ensures effects == [Run(TerminalCommand(CdCommand(GetFolderPath(itemPath, home, dirname)), home,
                                            FirstInstalled(TerminalApps, installed, DefaultTerminal))),
                        Hud("Opened folder in terminal")]
  {
    var folder := GetFolderPath(itemPath, home, dirname);
    var run := ExecuteInTerminal(CdCommand(folder), home, installed);
    effects := [run, Hud("Opened folder in terminal")];
  }

  /** openInClaudeCode. */
  method OpenInClaudeCode(itemPath: string, home: string, dirname: string -> string,
                          installed: string -> bool) returns (effects: seq<Effect>)
    ensures effects == [Run(TerminalCommand(ClaudeCommand(GetFolderPath(itemPath, home, dirname)), home,
                                            FirstInstalled(TerminalApps, installed, DefaultTerminal))),
                        Hud("Opened in Claude Code")]
  {
    var folder := GetFolderPath(itemPath, home, dirname);
    var run := ExecuteInTerminal(ClaudeCommand(folder), home, installed);
    effects := [run, Hud("Opened in Claude Code")];
  }

  /** viewGitHistory: `basename` is Node's `path.basename`. */
  method ViewGitHistory(itemPath: string, home: string, dirname: string -> string,
                        basename: string -> string, installed: string -> bool)
    returns (effects: seq<Effect>)
    ensures effects == [Run(TerminalCommand(GitHistoryCommand(GetFolderPath(itemPath, home, dirname),
                                                              basename(ExpandPath(itemPath, home))), home,
                                            FirstInstalled(TerminalApps, installed, DefaultTerminal))),
                        Hud("Showing git history")]
  {
    var expanded := ExpandPath(itemPath, home);
    var folder := GetFolderPath(itemPath, home, dirname);
    var filename := basename(expanded);
    var run := ExecuteInTerminal(GitHistoryCommand(folder, filename), home, installed);
    effects := [run, Hud("Showing git history")];
  }

  // ---------------------------------------------------------------------------------------
  // Editor fallback

  function EditorCommands(expanded: string): seq<string> {
    ["code \"" + expanded + "\"", "cursor \"" + expanded + "\"", OpenCommand(expanded)]
  }

  const EditorMessages: seq<string> := ["Opened in VS Code", "Opened in Cursor", "Opened in default editor"]

  /** The first command that succeeds, if any. */
  function FirstSuccess(commands: seq<string>, succeeds: string -> bool): (r: Option<nat>)
    ensures r.Some? ==> r.value < |commands| && succeeds(commands[r.value])
    ensures r.Some? ==> forall j :: 0 <= j < r.value ==> !succeeds(commands[j])
    ensures r.None? ==> forall j :: 0 <= j < |commands| ==> !succeeds(commands[j])
  {
    if commands == [] then None
    else if succeeds(commands[0]) then Some(0)
    else
      var rest := FirstSuccess(commands[1..], succeeds);
      if rest.Some? then Some(rest.value + 1) else None
  }

  function Attempts(commands: seq<string>): (runs: seq<Effect>)
    ensures |runs| == |commands|
    ensures forall k :: 0 <= k < |commands| ==> runs[k] == Run(commands[k])
  {
    if commands == [] then [] else [Run(commands[0])] + Attempts(commands[1..])
  }

  /**
   * openInEditor: code, then cursor, then open, each tried only when the ones before it failed;
   * when even open fails the error reaches the caller.
   */
  method OpenInEditor(itemPath: string, home: string, succeeds: string -> bool)
    returns (effects: seq<Effect>, failed: bool)
    ensures var commands := EditorCommands(ExpandPath(itemPath, home));
            var first := FirstSuccess(commands, succeeds);
            && (failed <==> first.None?)
            && (first.None? ==> effects == Attempts(commands))
            && (first.Some? ==> effects == Attempts(commands[..first.value + 1]) + [Hud(EditorMessages[first.value])])
  {
    var expanded := ExpandPath(itemPath, home);
    var commands := EditorCommands(expanded);
    ghost var first := FirstSuccess(commands, succeeds);
    assert commands[..1] == [commands[0]] && commands[..2] == [commands[0], commands[1]];
    assert commands == [commands[0], commands[1], commands[2]];
    effects := [Run(commands[0])];
    failed := false;
    if succeeds(commands[0]) {
      effects := effects + [Hud(EditorMessages[0])];
    } else {
      effects := effects + [Run(commands[1])];
      if succeeds(commands[1]) {
        effects := effects + [Hud(EditorMessages[1])];
      } else {
        effects := effects + [Run(commands[2])];
        if succeeds(commands[2]) {
          effects := effects + [Hud(EditorMessages[2])];
        } else {
          failed := true;
        }
      }
    }
  }

  // ---------------------------------------------------------------------------------------
  // Documentation

  /** macOS `open` on a quoted path, the last editor fallback and openDocumentation's command. */
  function OpenCommand(path: string): string {
    "open \"" + path + "\""
  }

  /** The path an `open` command opens: what follows `open "` up to the next quote. */
  function OpenedPath(command: string): Option<string> {
    if |command| >= 6 && command[..6] == "open \"" then Some(UpToQuote(command[6..])) else None
  }

  /** An `open` command opens exactly its path, when the path holds no double quote. */
  lemma OpenCommandOpens(path: string)
    requires '"' !in path
    ensures OpenedPath(OpenCommand(path)) == Some(path)
  {
    var c := OpenCommand(path);
    assert c == "open \"" + path + "\"" + "";
    assert c[..6] == "open \"";
    assert c[6..] == path + "\"" + "";
    UpToQuoteOf(path, "");
  }

  /**
   * openDocumentation: opens the path as given (unlike openInEditor, `~` is not expanded),
   * then reports it; a failing `open` reaches the caller before any HUD.
   */
  method OpenDocumentation(docPath: string, succeeds: string -> bool)
    returns (effects: seq<Effect>, failed: bool)
    ensures failed <==> !succeeds(OpenCommand(docPath))
    ensures effects == [Run(OpenCommand(docPath))] + if failed then [] else [Hud("Opened documentation")]
    ensures '"' !in docPath ==> OpenedPath(effects[0].command) == Some(docPath)
  {
    var command := OpenCommand(docPath);
    effects := [Run(command)];
    failed := !succeeds(command);
    if !failed {
      effects := effects + [Hud("Opened documentation")];
    }
    if '"' !in docPath {
      OpenCommandOpens(docPath);
    }
  }
}
