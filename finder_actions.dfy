/**
 * The Finder actions command: the front Finder window's path shown with the home directory
 * shortened, and the command that opens a terminal there. The path comes from AppleScript and
 * is an input; commands are returned, not run.
 */
module FinderActions {
  import opened Wrappers
  import opened Text

  // ---------------------------------------------------------------------------------------
  // The shortened path

  /** The end of the run of non-slash characters from `i` (greedy `[^/]+`). */
  function SegmentEnd(s: string, i: nat): (j: nat)
    requires i <= |s|
    ensures i <= j <= |s|
    ensures forall k :: i <= k < j ==> s[k] != '/'
    ensures j == |s| || s[j] == '/'
    decreases |s| - i
  {
    if i < |s| && s[i] != '/' then SegmentEnd(s, i + 1) else i
  }

  const UsersPrefix := "/Users/"

  /** `p.replace(/^\/Users\/[^/]+/, "~")`. */
  function ShortenHome(p: string): (r: string)
    ensures HomeShortened(p) ==>
      exists k :: |UsersPrefix| < k <= |p| && (k == |p| || p[k] == '/')
                  && (forall i :: |UsersPrefix| <= i < k ==> p[i] != '/') && r == "~" + p[k..]
    ensures !HomeShortened(p) ==> r == p
  {
    if HomeShortened(p) then "~" + p[SegmentEnd(p, |UsersPrefix|)..] else p
  }

  /** The path starts with "/Users/" followed by a non-empty segment. */
  predicate HomeShortened(p: string) {
    |p| > |UsersPrefix| && p[..|UsersPrefix|] == UsersPrefix && p[|UsersPrefix|] != '/'
  }

  /** shortPath: no path (null or empty) shows as nothing. */
  function ShortPath(finderPath: Option<string>): (shown: string)
    ensures finderPath.None? || finderPath.value == "" ==> shown == ""
  {
    if finderPath.Some? && finderPath.value != "" then ShortenHome(finderPath.value) else ""
  }

  /** The user's name, the whole segment after /Users/, becomes "~"; the rest of the path stays. */
  lemma ShortenHomeOf(name: string, rest: string)
    requires name != [] && '/' !in name
    requires rest == [] || rest[0] == '/'
    ensures ShortenHome(UsersPrefix + name + rest) == "~" + rest
  {
    var p := UsersPrefix + name + rest;
    assert p[..|UsersPrefix|] == UsersPrefix;
    assert forall k :: |UsersPrefix| <= k < |UsersPrefix| + |name| ==> p[k] == name[k - |UsersPrefix|];
    assert p[|UsersPrefix|] == name[0];
    SegmentEndAt(p, |UsersPrefix|, |UsersPrefix| + |name|);
    assert p[|UsersPrefix| + |name|..] == rest;
  }

  lemma {:induction false} SegmentEndAt(s: string, i: nat, j: nat)
    requires i <= j <= |s|
    requires forall k :: i <= k < j ==> s[k] != '/'
    requires j == |s| || s[j] == '/'
    ensures SegmentEnd(s, i) == j
    decreases j - i
  {
    if i < j {
      SegmentEndAt(s, i + 1, j);
    }
  }

  /** What is shown is nothing, the path itself, or "~" followed by the path from the next slash on. */
  lemma ShortPathShape(finderPath: Option<string>)
    ensures var shown := ShortPath(finderPath);
            shown == "" || shown == finderPath.value || (shown[0] == '~' && (|shown| == 1 || shown[1] == '/'))
  {
  }

  // ---------------------------------------------------------------------------------------
  // JSON.stringify of a string

  function HexDigit(d: nat): (c: char)
    requires d < 16
  {
    if d < 10 then ('0' as int + d) as char else ('a' as int + d - 10) as char
  }

  function HexValue(c: char): Option<nat> {
    if '0' <= c <= '9' then Some(c as int - '0' as int)
    else if 'a' <= c <= 'f' then Some(c as int - 'a' as int + 10)
    else None
  }

  lemma HexRoundTrip(d: nat)
    requires d < 16
    ensures HexValue(HexDigit(d)) == Some(d)
  {
  }

  /** How JSON.stringify writes one character inside the quotes. */
  function EscapeChar(c: char): string {
    if c == '"' then "\\\""
    else if c == '\\' then "\\\\"
    else if c == '\U{8}' then "\\b"
    else if c == '\U{C}' then "\\f"
    else if c == '\n' then "\\n"
    else if c == '\r' then "\\r"
    else if c == '\t' then "\\t"
    else if c < ' ' then "\\u00" + [HexDigit(c as int / 16), HexDigit(c as int % 16)]
    else [c]
  }

  function Escape(s: string): string {
    if s == [] then [] else EscapeChar(s[0]) + Escape(s[1..])
  }

  /** `JSON.stringify(s)` for a string. */
  function JsonQuote(s: string): (q: string)
    ensures ReadJsonString(q) == Some(s)
  {
    var q := "\"" + Escape(s) + "\"";
    assert q[1..|q| - 1] == Escape(s);
    UnescapeEscape(s);
    q
  }

  /** The character a one-letter escape stands for. */
  function ShortEscape(c: char): Option<char> {
    if c == '"' then Some('"')
    else if c == '\\' then Some('\\')
    else if c == 'b' then Some('\U{8}')
    else if c == 'f' then Some('\U{C}')
    else if c == 'n' then Some('\n')
    else if c == 'r' then Some('\r')
    else if c == 't' then Some('\t')
    else None
  }

  function Prepend(c: char, rest: Option<string>): Option<string> {
    if rest.Some? then Some([c] + rest.value) else None
  }

  /** How a JSON reader decodes the inside of a string literal; a bare quote ends it early. */
  function Unescape(s: string): Option<string> {
    if s == [] then Some([])
    else if s[0] == '"' then None
    else if s[0] != '\\' then Prepend(s[0], Unescape(s[1..]))
    else if |s| >= 2 && ShortEscape(s[1]).Some? then Prepend(ShortEscape(s[1]).value, Unescape(s[2..]))
    else if |s| >= 6 && s[1] == 'u' && s[2] == '0' && s[3] == '0'
            && HexValue(s[4]).Some? && HexValue(s[5]).Some?
    then Prepend((HexValue(s[4]).value * 16 + HexValue(s[5]).value) as char, Unescape(s[6..]))
    else None
  }

  /** A JSON string literal: quotes around its escaped contents. */
  function ReadJsonString(q: string): Option<string> {
    if |q| >= 2 && q[0] == '"' && q[|q| - 1] == '"' then Unescape(q[1..|q| - 1]) else None
  }

  lemma UnescapeChar(c: char, t: string)
    ensures Unescape(EscapeChar(c) + t) == Prepend(c, Unescape(t))
  {
    var e := EscapeChar(c);
    if c < ' ' && c != '\U{8}' && c != '\U{C}' && c != '\n' && c != '\r' && c != '\t' {
      var hi := c as int / 16;
      var lo := c as int % 16;
      HexRoundTrip(hi);
      HexRoundTrip(lo);
      var s := e + t;
      assert s[..6] == e;
      assert s[6..] == t;
      assert ShortEscape(s[1]).None?;
    } else if |e| == 2 {
      assert (e + t)[2..] == t;
    } else {
      assert (e + t)[1..] == t;
    }
  }

  lemma {:induction false} UnescapeEscape(s: string)
    ensures Unescape(Escape(s)) == Some(s)
  {
    if s != [] {
      var t := Escape(s[1..]);
      UnescapeEscape(s[1..]);
      assert Escape(s) == EscapeChar(s[0]) + t;
      UnescapeChar(s[0], t);
      assert [s[0]] + s[1..] == s;
    }
  }

  // ---------------------------------------------------------------------------------------
  // Opening a terminal

  datatype Effect = CloseMainWindow | Exec(command: string) | RunAppleScript(script: string)

  /** The iTerm script: a new window whose session changes into the directory. */
  function ITermScript(dir: string): string {
    ITermHead + dir + ITermTail
  }

  const ITermHead: string :=
    "\n        tell application \"iTerm\"\n          activate\n"
    + "          create window with default profile\n"
    + "          tell current session of current window\n"
    + "            write text \"cd \" & quoted form of \""

  const ITermTail: string := "\"\n          end tell\n        end tell\n      "

  /**
   * openTerminal: the main window closes, then one command per known terminal, none for any
   * other name. Terminal, Ghostty and Warp take the JSON-quoted directory; the iTerm script
   * holds it as it is.
   */
  function OpenTerminal(terminal: string, dir: string): (effects: seq<Effect>)
    ensures |effects| >= 1 && effects[0] == CloseMainWindow
    ensures |effects| == 2 <==> terminal in ["Terminal", "Ghostty", "iTerm", "Warp"]
    ensures |effects| == 1 <==> terminal !in ["Terminal", "Ghostty", "iTerm", "Warp"]
  {
    [CloseMainWindow]
    + if terminal == "Terminal" then [Exec("open -a Terminal " + JsonQuote(dir))]
      else if terminal == "Ghostty" then
        [Exec("open -n -a Ghostty --args --working-directory=" + JsonQuote(dir))]
      else if terminal == "iTerm" then [RunAppleScript(ITermScript(dir))]
      else if terminal == "Warp" then [Exec("open -a Warp " + JsonQuote(dir))]
      else []
  }

  /** The exec'd commands end with the quoted directory, which reads back as the directory. */
  lemma OpenTerminalQuotes(terminal: string, dir: string)
    requires terminal in ["Terminal", "Ghostty", "Warp"]
    ensures var e := OpenTerminal(terminal, dir)[1];
            var q := JsonQuote(dir);
            e.Exec? && |e.command| >= |q| && ReadJsonString(e.command[|e.command| - |q|..]) == Some(dir)
  {
    var q := JsonQuote(dir);
    var e := OpenTerminal(terminal, dir)[1];
    assert e.command[|e.command| - |q|..] == q;
  }

  /** The iTerm script holds the directory verbatim, between the quotes of an AppleScript string. */
  lemma ITermHoldsDirectory(dir: string)
    ensures var script := ITermScript(dir);
            var at := |ITermHead|;
            && script[at..at + |dir|] == dir
            && script[at - 1] == '"' && script[at + |dir|] == '"'
  {
    var script := ITermScript(dir);
    var at := |ITermHead|;
    assert ITermHead[at - 1] == '"' && ITermTail[0] == '"';
    assert script[..at] == ITermHead;
    assert script[at..at + |dir|] == dir;
  }
}
