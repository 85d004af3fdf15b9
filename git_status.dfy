/**
 * The git indicator of the Claude usage extension: whether a project directory is a git
 * repository with a GitHub remote, and the symbol and label shown for it. Whether the `.git`
 * directory exists and the output of `git remote -v` (absent when the command fails) are inputs.
 */
module GitStatus {
  import opened Wrappers
  import opened Text
  import ResetParsing

  datatype Status = Status(isGitRepo: bool, hasGitHubRemote: bool,
                           remoteName: Option<string>, remoteUrl: Option<string>)

  const NotTracked := Status(false, false, None, None)

  /** The end of the maximal run of non-white-space characters starting at `i` (greedy `\S+`). */
  function WordEnd(s: string, i: nat): (j: nat)
    requires i <= |s|
    ensures i <= j <= |s|
    ensures forall k :: i <= k < j ==> !IsSpace(s[k])
    ensures j == |s| || IsSpace(s[j])
    decreases |s| - i
  {
    if i < |s| && !IsSpace(s[i]) then WordEnd(s, i + 1) else i
  }

  predicate IsWord(s: string) {
    s != [] && forall k :: 0 <= k < |s| ==> !IsSpace(s[k])
  }

  /** `remote.match(/^(\S+)\s+(\S+)/)`: the remote's name and URL, its first two words. */
  function RemoteFields(line: string): (r: Option<(string, string)>)
    ensures r.Some? ==> IsWord(r.value.0) && IsWord(r.value.1) && StartsWith(line, r.value.0)
  {
    var nameEnd := WordEnd(line, 0);
    if nameEnd == 0 then None
    else
      var urlStart := ResetParsing.SpaceRunEnd(line, nameEnd);
      if urlStart == nameEnd then None
      else
        var urlEnd := WordEnd(line, urlStart);
        if urlEnd == urlStart then None
        else Some((line[..nameEnd], line[urlStart..urlEnd]))
  }

  lemma WordEndOf(w: string, rest: string)
    requires IsWord(w) && (rest == [] || IsSpace(rest[0]))
    ensures WordEnd(w + rest, 0) == |w|
  {
    var s := w + rest;
    assert forall k :: 0 <= k < |w| ==> s[k] == w[k];
    if rest != [] {
      assert s[|w|] == rest[0];
    }
  }

  lemma WordEndFrom(prefix: string, w: string, rest: string)
    requires IsWord(w) && (rest == [] || IsSpace(rest[0]))
    ensures WordEnd(prefix + w + rest, |prefix|) == |prefix| + |w|
  {
    var s := prefix + w + rest;
    assert forall k :: |prefix| <= k < |prefix| + |w| ==> s[k] == w[k - |prefix|];
    if rest != [] {
      assert s[|prefix| + |w|] == rest[0];
    }
  }

  lemma SpaceRunOf(prefix: string, gap: string, rest: string)
    requires gap != [] && (forall k :: 0 <= k < |gap| ==> IsSpace(gap[k]))
    requires rest != [] && !IsSpace(rest[0])
    ensures ResetParsing.SpaceRunEnd(prefix + gap + rest, |prefix|) == |prefix| + |gap|
  {
    var s := prefix + gap + rest;
    assert forall k :: |prefix| <= k < |prefix| + |gap| ==> s[k] == gap[k - |prefix|];
    assert s[|prefix| + |gap|] == rest[0];
  }

  /**
   * A `git remote -v` line, name, white space, URL and anything after a further space, gives
   * back its name and URL.
   */
  lemma RemoteFieldsOfLine(name: string, gap: string, url: string, rest: string)
    requires IsWord(name) && IsWord(url)
    requires gap != [] && forall k :: 0 <= k < |gap| ==> IsSpace(gap[k])
    requires rest == [] || IsSpace(rest[0])
    ensures RemoteFields(name + gap + url + rest) == Some((name, url))
  {
    var line := name + gap + url + rest;
    RunsOfLine(name, gap, url, rest);
    RemoteFieldsAt(line, |name|, |name| + |gap|, |name| + |gap| + |url|);
    Pieces(name, gap, url, rest);
  }

  /** Where the name, the white space and the URL of such a line end. */
  lemma RunsOfLine(name: string, gap: string, url: string, rest: string)
    requires IsWord(name) && IsWord(url)
    requires gap != [] && forall k :: 0 <= k < |gap| ==> IsSpace(gap[k])
    requires rest == [] || IsSpace(rest[0])
    ensures WordEnd(name + gap + url + rest, 0) == |name|
    ensures ResetParsing.SpaceRunEnd(name + gap + url + rest, |name|) == |name| + |gap|
    ensures WordEnd(name + gap + url + rest, |name| + |gap|) == |name| + |gap| + |url|
  {
    NameRun(name, gap, url, rest);
    GapRun(name, gap, url, rest);
    WordEndFrom(name + gap, url, rest);
  }

  lemma NameRun(name: string, gap: string, url: string, rest: string)
    requires IsWord(name) && gap != [] && IsSpace(gap[0])
    ensures WordEnd(name + gap + url + rest, 0) == |name|
  {
    assert name + gap + url + rest == name + (gap + url + rest);
    WordEndOf(name, gap + url + rest);
  }

  lemma GapRun(name: string, gap: string, url: string, rest: string)
    requires gap != [] && (forall k :: 0 <= k < |gap| ==> IsSpace(gap[k]))
    requires url != [] && !IsSpace(url[0])
    ensures ResetParsing.SpaceRunEnd(name + gap + url + rest, |name|) == |name| + |gap|
  {
    assert name + gap + url + rest == name + gap + (url + rest);
    SpaceRunOf(name, gap, url + rest);
  }

  lemma Pieces<T>(a: seq<T>, b: seq<T>, c: seq<T>, d: seq<T>)
    ensures (a + b + c + d)[..|a|] == a
    ensures (a + b + c + d)[|a| + |b|..|a| + |b| + |c|] == c
  {
  }

  lemma RemoteFieldsAt(line: string, nameEnd: nat, urlStart: nat, urlEnd: nat)
    requires 0 < nameEnd < urlStart < urlEnd <= |line|
    requires WordEnd(line, 0) == nameEnd
    requires ResetParsing.SpaceRunEnd(line, nameEnd) == urlStart
    requires WordEnd(line, urlStart) == urlEnd
    ensures RemoteFields(line) == Some((line[..nameEnd], line[urlStart..urlEnd]))
  {
  }

  /** A line that starts with white space has no name, so no fields. */
  lemma RemoteFieldsNeedName(line: string)
    requires line != [] && IsSpace(line[0])
    ensures RemoteFields(line) == None
  {
  }

  const GitHubHost := "github.com"

  /** The first line that mentions github.com, if any. */
  function FirstGitHubLine(lines: seq<string>): (r: Option<nat>)
    ensures r.Some? ==> r.value < |lines| && Contains(lines[r.value], GitHubHost)
    ensures r.Some? ==> forall j :: 0 <= j < r.value ==> !Contains(lines[j], GitHubHost)
    ensures r.None? ==> forall j :: 0 <= j < |lines| ==> !Contains(lines[j], GitHubHost)
  {
    if lines == [] then None
    else if Contains(lines[0], GitHubHost) then Some(0)
    else
      var rest := FirstGitHubLine(lines[1..]);
      if rest.Some? then Some(rest.value + 1) else None
  }

  /** The lines of `stdout.trim().split("\n")`. */
  function RemoteLines(stdout: string): seq<string> {
    Split(Trim(stdout), '\n')
  }

  /** What checkGitStatus reports. */
  function StatusOf(hasGitDir: bool, remoteOutput: Option<string>): (s: Status)
    ensures s.isGitRepo == hasGitDir
    ensures s.hasGitHubRemote <==>
              hasGitDir && remoteOutput.Some?
              && exists j :: 0 <= j < |RemoteLines(remoteOutput.value)|
                             && Contains(RemoteLines(remoteOutput.value)[j], GitHubHost)
    ensures s.remoteName.Some? <==> s.remoteUrl.Some?
    ensures s.remoteName.Some? ==>
              && hasGitDir && remoteOutput.Some?
              && var lines := RemoteLines(remoteOutput.value);
                 exists j :: 0 <= j < |lines| && Contains(lines[j], GitHubHost)
                             && (forall i :: 0 <= i < j ==> !Contains(lines[i], GitHubHost))
                             && RemoteFields(lines[j]) == Some((s.remoteName.value, s.remoteUrl.value))
  {
    if !hasGitDir then NotTracked
    else if remoteOutput.None? then Status(true, false, None, None)
    else
      var lines := RemoteLines(remoteOutput.value);
      var first := FirstGitHubLine(lines);
      if first.None? then Status(true, false, None, None)
      else
        var fields := RemoteFields(lines[first.value]);
        if fields.None? then Status(true, true, None, None)
        else Status(true, true, Some(fields.value.0), Some(fields.value.1))
  }

  /** checkGitStatus: the `.git` check, then the scan of the remotes for the first GitHub line. */
  method CheckGitStatus(hasGitDir: bool, remoteOutput: Option<string>) returns (result: Status)
    ensures result == StatusOf(hasGitDir, remoteOutput)
  {
    result := NotTracked;
    if !hasGitDir {
      return;
    }
    result := result.(isGitRepo := true);
    if remoteOutput.None? {
      return;
    }
    var remotes := RemoteLines(remoteOutput.value);
    var k := 0;
    while k < |remotes|
      invariant 0 <= k <= |remotes|
      invariant forall j :: 0 <= j < k ==> !Contains(remotes[j], GitHubHost)
      invariant result == Status(true, false, None, None)
    {
      if Contains(remotes[k], GitHubHost) {
        result := result.(hasGitHubRemote := true);
        var fields := RemoteFields(remotes[k]);
        if fields.Some? {
          result := result.(remoteName := Some(fields.value.0), remoteUrl := Some(fields.value.1));
        }
        FirstGitHubLineAt(remotes, k);
        StatusOfFirstLine(remoteOutput.value, k);
        return;
      }
      k := k + 1;
    }
    StatusOfNoGitHubLine(remoteOutput.value);
  }

  /** The status when the remote line `k` is the first to mention github.com. */
  lemma StatusOfFirstLine(output: string, k: nat)
    requires FirstGitHubLine(RemoteLines(output)) == Some(k)
    ensures var fields := RemoteFields(RemoteLines(output)[k]);
            StatusOf(true, Some(output)) == if fields.None? then Status(true, true, None, None)
                                            else Status(true, true, Some(fields.value.0), Some(fields.value.1))
  {
  }

  /** The status when no remote line mentions github.com. */
  lemma StatusOfNoGitHubLine(output: string)
    requires forall j :: 0 <= j < |RemoteLines(output)| ==> !Contains(RemoteLines(output)[j], GitHubHost)
    ensures StatusOf(true, Some(output)) == Status(true, false, None, None)
  {
    assert FirstGitHubLine(RemoteLines(output)).None?;
  }

  /**
   * The report's guarantees: a GitHub remote is only found inside a git repository, remote
   * fields only with a GitHub remote, and with no `.git` directory nothing is set.
   */
  lemma StatusConsistent(hasGitDir: bool, remoteOutput: Option<string>)
    ensures var s := StatusOf(hasGitDir, remoteOutput);
            && (s.hasGitHubRemote ==> s.isGitRepo)
            && (s.remoteName.Some? <==> s.remoteUrl.Some?)
            && (s.remoteName.Some? ==> s.hasGitHubRemote)
            && (s.isGitRepo <==> hasGitDir)
            && (!hasGitDir ==> s == NotTracked)
            && (remoteOutput.None? ==> !s.hasGitHubRemote)
  {
    if hasGitDir && remoteOutput.Some? {
      var first := FirstGitHubLine(RemoteLines(remoteOutput.value));
      var s := StatusOf(hasGitDir, remoteOutput);
      if first.None? {
        assert s == Status(true, false, None, None);
      } else {
        assert s.isGitRepo && s.hasGitHubRemote;
      }
    }
  }

  lemma {:induction false} FirstGitHubLineAt(lines: seq<string>, k: nat)
    requires k < |lines| && Contains(lines[k], GitHubHost)
    requires forall j :: 0 <= j < k ==> !Contains(lines[j], GitHubHost)
    ensures FirstGitHubLine(lines) == Some(k)
  {
    if k > 0 {
      FirstGitHubLineAt(lines[1..], k - 1);
    }
  }

  /** Only the first GitHub line counts: its fields are reported whatever later lines say. */
  lemma FirstGitHubLineWins(before: seq<string>, line: string, after: seq<string>)
    requires forall j :: 0 <= j < |before| ==> !Contains(before[j], GitHubHost)
    requires Contains(line, GitHubHost)
    ensures FirstGitHubLine(before + [line] + after) == Some(|before|)
  {
    var lines := before + [line] + after;
    assert lines[|before|] == line;
    assert forall j :: 0 <= j < |before| ==> lines[j] == before[j];
  }

  /** getGitStatusSymbol: "⑃☁️" with a GitHub remote, "⑃" for a local repository, else nothing. */
  function Symbol(status: Status): (s: string)
    ensures status.hasGitHubRemote ==> s == "\U{2443}\U{2601}\U{FE0F}"
    ensures !status.hasGitHubRemote && status.isGitRepo ==> s == "\U{2443}"
    ensures s == "" <==> !status.hasGitHubRemote && !status.isGitRepo
  {
    if status.hasGitHubRemote then "\U{2443}\U{2601}\U{FE0F}"
    else if status.isGitRepo then "\U{2443}"
    else ""
  }

  /** getGitStatusLabel, with the same precedence. */
  function Label(status: Status): (l: string)
    ensures l == "Git + GitHub" <==> status.hasGitHubRemote
    ensures l == "Git (local only)" <==> !status.hasGitHubRemote && status.isGitRepo
    ensures l == "No version control" <==> !status.hasGitHubRemote && !status.isGitRepo
  {
    if status.hasGitHubRemote then "Git + GitHub"
    else if status.isGitRepo then "Git (local only)"
    else "No version control"
  }

  /** Symbol and label tell the same three cases apart: each determines the other. */
  lemma SymbolAndLabelAgree(a: Status, b: Status)
    ensures Symbol(a) == Symbol(b) <==> Label(a) == Label(b)
  {
    var gh := "\U{2443}\U{2601}\U{FE0F}";
    assert |gh| == 3 && |"\U{2443}"| == 1;
    assert "Git + GitHub"[4] != "Git (local only)"[4];
    assert "Git + GitHub"[0] != "No version control"[0];
    assert "Git (local only)"[0] != "No version control"[0];
  }
}
