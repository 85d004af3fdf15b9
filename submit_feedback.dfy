/**
 * The shared "Submit Feedback" command: the GitHub issue it files for an extension, its title,
 * body and labels, and the choice between the GitHub API (with a token) and the prefilled
 * new-issue page. The API's answer is an input; the page's query-string encoding is left out.
 */
module SubmitFeedback {
  import opened Wrappers
  import opened Text

  datatype ExtensionInfo = ExtensionInfo(githubRepo: string, extensionName: string,
                                         displayName: string, defaultLabels: seq<string>,
                                         contributingUrl: string)

  /** EXTENSION_INFO as the template ships it. */
  const Configured := ExtensionInfo("YOUR_USERNAME/raycast-extensions", "extension-name-here",
                                    "Extension Display Name",
                                    ["enhancement", "extension: extension-name-here"], "")

  datatype FormValues = FormValues(feedbackType: string, title: string, description: string,
                                   steps: Option<string>, expected: Option<string>,
                                   actual: Option<string>, priority: string)

  /** FEEDBACK_TYPES: each form value with its heading. */
  const FeedbackTypes: seq<(string, string)> :=
    [("bug", "\U{1F41B} Bug Report"), ("feature", "\U{2728} Feature Request"),
     ("improvement", "\U{1F527} Improvement"), ("question", "\U{2753} Question")]

  /** `types.find((t) => t.value === value)?.title`. */
  function FindTitle(types: seq<(string, string)>, value: string): (title: Option<string>)
    ensures title.Some? ==> exists k :: 0 <= k < |types| && types[k] == (value, title.value)
    ensures title.None? ==> forall k :: 0 <= k < |types| ==> types[k].0 != value
  {
    if types == [] then None
    else if types[0].0 == value then Some(types[0].1)
    else
      var rest := FindTitle(types[1..], value);
      assert forall k :: 1 <= k < |types| ==> types[k] == types[1..][k - 1];
      rest
  }

  /** The heading of the body: the type's title, or "Feedback" for a type the list lacks. */
  function TypeTitle(feedbackType: string): string {
    OrElse(FindTitle(FeedbackTypes, feedbackType), "Feedback")
  }

  lemma TypeTitles(feedbackType: string)
    ensures feedbackType == "bug" ==> TypeTitle(feedbackType) == "\U{1F41B} Bug Report"
    ensures feedbackType == "feature" ==> TypeTitle(feedbackType) == "\U{2728} Feature Request"
    ensures feedbackType !in ["bug", "feature", "improvement", "question"]
            ==> TypeTitle(feedbackType) == "Feedback"
  {
    if feedbackType !in ["bug", "feature", "improvement", "question"] {
      assert forall k :: 0 <= k < |FeedbackTypes| ==> FeedbackTypes[k].0 != feedbackType;
    }
  }

  const NotProvided := "_Not provided_"

  function Header(info: ExtensionInfo, values: FormValues): seq<string> {
    [ "## " + TypeTitle(values.feedbackType), "", "**Extension**: " + info.displayName,
      "**Priority**: " + values.priority, "", "### Description", values.description ]
  }

  function BugSections(values: FormValues): seq<string> {
    [ "", "### Steps to Reproduce", OrElse(values.steps, NotProvided),
      "", "### Expected Behavior", OrElse(values.expected, NotProvided),
      "", "### Actual Behavior", OrElse(values.actual, NotProvided) ]
  }

  /** The closing rule, the signature and the CLAUDE_CODE_CONTEXT comment. */
  function Footer(info: ExtensionInfo, values: FormValues): seq<string> {
    [ "", "---", "_Submitted via " + info.displayName + " extension feedback command_", "",
      "<!-- CLAUDE_CODE_CONTEXT", "Extension: " + info.extensionName, "Repo: " + info.githubRepo,
      "Type: " + values.feedbackType, "Priority: " + values.priority, "-->" ]
  }

  /** The sections of generateIssueBody, before they are joined. */
  function Sections(info: ExtensionInfo, values: FormValues): seq<string> {
    Header(info, values) + (if values.feedbackType == "bug" then BugSections(values) else [])
    + Footer(info, values)
  }

  /** generateIssueBody's list: the header, the bug sections for a bug, then the footer, pushed in turn. */
  method IssueSections(info: ExtensionInfo, values: FormValues) returns (sections: seq<string>)
    ensures sections == Sections(info, values)
    ensures sections[0] == "## " + TypeTitle(values.feedbackType)
    ensures |sections| == if values.feedbackType == "bug" then 26 else 17
    ensures sections[|sections| - 10..] == Footer(info, values)
  {
    sections := Header(info, values);
    if values.feedbackType == "bug" {
      sections := sections + BugSections(values);
    }
    sections := sections + Footer(info, values);
  }

  /** The CLAUDE_CODE_CONTEXT comment that closes every issue body. */
  function ContextComment(info: ExtensionInfo, values: FormValues): string {
    "<!-- CLAUDE_CODE_CONTEXT\nExtension: " + info.extensionName + "\nRepo: " + info.githubRepo
    + "\nType: " + values.feedbackType + "\nPriority: " + values.priority + "\n-->"
  }

  /**
   * generateIssueBody: the sections joined by newlines. Whatever the fields hold, the body opens
   * with the type's heading line and closes with the footer, whose last lines are the context
   * comment; when no field holds a line break it splits back into exactly its sections.
   */
  function IssueBody(info: ExtensionInfo, values: FormValues): (body: string)
    ensures StartsWith(body, "## " + TypeTitle(values.feedbackType) + "\n")
    ensures EndsWith(body, "\n" + Join(Footer(info, values), "\n"))
    ensures EndsWith(body, "\n" + ContextComment(info, values))
    ensures SingleLineFields(info, values) ==> Split(body, '\n') == Sections(info, values)
  {
    IssueBodyShape(info, values);
    if SingleLineFields(info, values) then
      SectionsSplitBack(info, values);
      Join(Sections(info, values), "\n")
    else
      Join(Sections(info, values), "\n")
  }

  /** The joined sections start with the heading line and end with the joined footer. */
  lemma IssueBodyShape(info: ExtensionInfo, values: FormValues)
    ensures var body := Join(Sections(info, values), "\n");
            && StartsWith(body, "## " + TypeTitle(values.feedbackType) + "\n")
            && EndsWith(body, "\n" + Join(Footer(info, values), "\n"))
            && EndsWith(body, "\n" + ContextComment(info, values))
  {
    var pre := Header(info, values) + (if values.feedbackType == "bug" then BugSections(values) else []);
    var foot := Footer(info, values);
    assert Sections(info, values) == pre + foot;
    assert pre[0] == "## " + TypeTitle(values.feedbackType);
    JoinShape(pre, foot, "\n");
    FooterEndsWithContext(info, values);
    EndsWithTrans(Join(pre + foot, "\n"), "\n" + Join(foot, "\n"), "\n" + ContextComment(info, values));
  }

  /** Joining `pre + foot` starts with pre's first line and ends with the joined `foot`. */
  lemma JoinShape(pre: seq<string>, foot: seq<string>, sep: string)
    requires pre != [] && foot != []
    ensures StartsWith(Join(pre + foot, sep), pre[0] + sep)
    ensures EndsWith(Join(pre + foot, sep), sep + Join(foot, sep))
  {
    JoinStarts(pre + foot, sep);
    JoinAppend(pre, foot, sep);
    EndsWithSeparated(Join(pre, sep), sep, Join(foot, sep));
  }

  lemma EndsWithSeparated(x: string, sep: string, y: string)
    ensures EndsWith(x + sep + y, sep + y)
  {
    assert x + sep + y == x + (sep + y);
    EndsWithAppend(x, sep + y);
  }

  lemma JoinStarts(all: seq<string>, sep: string)
    requires |all| >= 2
    ensures StartsWith(Join(all, sep), all[0] + sep)
  {
    var body := Join(all, sep);
    assert body == (all[0] + sep) + Join(all[1..], sep);
    assert body[..|all[0] + sep|] == all[0] + sep;
  }

  /** The footer's last six lines are the context comment. */
  lemma FooterEndsWithContext(info: ExtensionInfo, values: FormValues)
    ensures EndsWith("\n" + Join(Footer(info, values), "\n"), "\n" + ContextComment(info, values))
  {
    var rule := ["", "---", "_Submitted via " + info.displayName + " extension feedback command_", ""];
    var tail := ContextLines(info, values);
    assert Footer(info, values) == rule + tail;
    JoinTail(rule, tail, "\n");
    ContextLinesJoin(info, values);
  }

  function ContextLines(info: ExtensionInfo, values: FormValues): seq<string> {
    ["<!-- CLAUDE_CODE_CONTEXT", "Extension: " + info.extensionName, "Repo: " + info.githubRepo,
     "Type: " + values.feedbackType, "Priority: " + values.priority, "-->"]
  }

  lemma ContextLinesJoin(info: ExtensionInfo, values: FormValues)
    ensures Join(ContextLines(info, values), "\n") == ContextComment(info, values)
  {
    var tail := ContextLines(info, values);
    JoinSix(tail[0], tail[1], tail[2], tail[3], tail[4], tail[5]);
    assert tail == [tail[0], tail[1], tail[2], tail[3], tail[4], tail[5]];
    ContextCommentIs(info, values);
  }

  /** Joining `rule + tail` ends with the separator and the joined tail. */
  lemma JoinTail(rule: seq<string>, tail: seq<string>, sep: string)
    requires rule != [] && tail != []
    ensures EndsWith(sep + Join(rule + tail, sep), sep + Join(tail, sep))
  {
    JoinAppend(rule, tail, sep);
    assert sep + Join(rule + tail, sep) == (sep + Join(rule, sep)) + (sep + Join(tail, sep));
    EndsWithAppend(sep + Join(rule, sep), sep + Join(tail, sep));
  }

  lemma ContextCommentIs(info: ExtensionInfo, values: FormValues)
    ensures ContextComment(info, values)
         == "<!-- CLAUDE_CODE_CONTEXT" + "\n" + ("Extension: " + info.extensionName) + "\n" + ("Repo: " + info.githubRepo)
            + "\n" + ("Type: " + values.feedbackType) + "\n" + ("Priority: " + values.priority) + "\n" + "-->"
  {
  }

  lemma JoinSix(a: string, b: string, c: string, d: string, e: string, f: string)
    ensures Join([a, b, c, d, e, f], "\n") == a + "\n" + b + "\n" + c + "\n" + d + "\n" + e + "\n" + f
  {
    var xs := [a, b, c, d, e, f];
    assert xs[1..] == [b, c, d, e, f] && xs[2..] == [c, d, e, f] && xs[3..] == [d, e, f];
    assert xs[4..] == [e, f] && xs[5..] == [f];
    assert Join([e, f], "\n") == e + "\n" + f;
    assert Join([d, e, f], "\n") == d + "\n" + (e + "\n" + f);
    assert Join([c, d, e, f], "\n") == c + "\n" + (d + "\n" + (e + "\n" + f));
    assert Join([b, c, d, e, f], "\n") == b + "\n" + (c + "\n" + (d + "\n" + (e + "\n" + f)));
    assert Join(xs, "\n") == a + "\n" + (b + "\n" + (c + "\n" + (d + "\n" + (e + "\n" + f))));
  }

  predicate NoBreaks(lines: seq<string>) {
    forall k :: 0 <= k < |lines| ==> '\n' !in lines[k]
  }

  lemma TypeTitleNoBreak(feedbackType: string)
    ensures '\n' !in TypeTitle(feedbackType)
  {
    var found := FindTitle(FeedbackTypes, feedbackType);
    LiteralNoBreak("Feedback");
    if found.Some? {
      var k :| 0 <= k < |FeedbackTypes| && FeedbackTypes[k] == (feedbackType, found.value);
      TitlesNoBreak(k);
    }
  }

  lemma TitlesNoBreak(k: nat)
    requires k < |FeedbackTypes|
    ensures '\n' !in FeedbackTypes[k].1
  {
    LiteralNoBreak(FeedbackTypes[k].1);
  }

  lemma NoBreaksAppend(a: seq<string>, b: seq<string>)
    requires NoBreaks(a) && NoBreaks(b)
    ensures NoBreaks(a + b)
  {
    assert forall k :: |a| <= k < |a + b| ==> (a + b)[k] == b[k - |a|];
  }

  /** No field of the form or of the extension's settings holds a line break. */
  predicate SingleLineFields(info: ExtensionInfo, values: FormValues) {
    && '\n' !in info.displayName && '\n' !in info.extensionName && '\n' !in info.githubRepo
    && '\n' !in values.feedbackType && '\n' !in values.priority && '\n' !in values.description
    && (values.steps.Some? ==> '\n' !in values.steps.value)
    && (values.expected.Some? ==> '\n' !in values.expected.value)
    && (values.actual.Some? ==> '\n' !in values.actual.value)
  }

  lemma ConcatNoBreak(a: string, b: string)
    requires '\n' !in a && '\n' !in b
    ensures '\n' !in a + b
  {
  }

  lemma HeaderNoBreaks(info: ExtensionInfo, values: FormValues)
    requires SingleLineFields(info, values)
    ensures NoBreaks(Header(info, values))
  {
    TypeTitleNoBreak(values.feedbackType);
    ConcatNoBreak("## ", TypeTitle(values.feedbackType));
    ConcatNoBreak("**Extension**: ", info.displayName);
    ConcatNoBreak("**Priority**: ", values.priority);
  }

  lemma BugSectionsNoBreaks(info: ExtensionInfo, values: FormValues)
    requires SingleLineFields(info, values)
    ensures NoBreaks(BugSections(values))
  {
  }

  /** The fields the footer shows hold no line break; the description and the steps may. */
  predicate FooterFieldsSingleLine(info: ExtensionInfo, values: FormValues) {
    && '\n' !in info.displayName && '\n' !in info.extensionName && '\n' !in info.githubRepo
    && '\n' !in values.feedbackType && '\n' !in values.priority
  }

  lemma FooterNoBreaks(info: ExtensionInfo, values: FormValues)
    requires FooterFieldsSingleLine(info, values)
    ensures NoBreaks(Footer(info, values))
  {
    FooterLiteralsNoBreak();
    ConcatNoBreak("_Submitted via ", info.displayName);
    ConcatNoBreak("_Submitted via " + info.displayName, " extension feedback command_");
    ConcatNoBreak("Extension: ", info.extensionName);
    ConcatNoBreak("Repo: ", info.githubRepo);
    ConcatNoBreak("Type: ", values.feedbackType);
    ConcatNoBreak("Priority: ", values.priority);
    var f := Footer(info, values);
    assert f[2] == "_Submitted via " + info.displayName + " extension feedback command_";
    assert f[5] == "Extension: " + info.extensionName && f[6] == "Repo: " + info.githubRepo;
    assert f[7] == "Type: " + values.feedbackType && f[8] == "Priority: " + values.priority;
    assert f[0] == "" && f[1] == "---" && f[3] == "" && f[4] == "<!-- CLAUDE_CODE_CONTEXT" && f[9] == "-->";
    TenNoBreaks(f);
  }

  lemma FooterLiteralsNoBreak()
    ensures '\n' !in "---" && '\n' !in "<!-- CLAUDE_CODE_CONTEXT" && '\n' !in "-->"
    ensures '\n' !in "_Submitted via " && '\n' !in " extension feedback command_"
    ensures '\n' !in "Extension: " && '\n' !in "Repo: " && '\n' !in "Type: " && '\n' !in "Priority: "
  {
    LiteralNoBreak("---");
    LiteralNoBreak("<!-- CLAUDE_CODE_CONTEXT");
    LiteralNoBreak("-->");
    LiteralNoBreak("_Submitted via ");
    LiteralNoBreak(" extension feedback command_");
    LiteralNoBreak("Extension: ");
    LiteralNoBreak("Repo: ");
    LiteralNoBreak("Type: ");
    LiteralNoBreak("Priority: ");
  }

  /** Text without control characters holds no line break. */
  lemma LiteralNoBreak(s: string)
    requires forall k :: 0 <= k < |s| ==> s[k] >= ' '
    ensures '\n' !in s
  {
  }

  lemma TenNoBreaks(f: seq<string>)
    requires |f| == 10
    requires '\n' !in f[0] && '\n' !in f[1] && '\n' !in f[2] && '\n' !in f[3] && '\n' !in f[4]
    requires '\n' !in f[5] && '\n' !in f[6] && '\n' !in f[7] && '\n' !in f[8] && '\n' !in f[9]
    ensures NoBreaks(f)
  {
  }

  /**
   * Split at newlines, the body ends with the footer's ten lines, closing with the type, the
   * priority and "-->", whatever the description and the bug fields hold; when no field holds a
   * line break the body splits back into exactly its sections.
   */
  lemma IssueBodyLines(info: ExtensionInfo, values: FormValues)
    requires FooterFieldsSingleLine(info, values)
    ensures var lines := Split(IssueBody(info, values), '\n');
            && |lines| >= 10
            && lines[|lines| - 10..] == Footer(info, values)
            && lines[|lines| - 1] == "-->"
            && lines[|lines| - 3] == "Type: " + values.feedbackType
            && lines[|lines| - 2] == "Priority: " + values.priority
            && (SingleLineFields(info, values) ==> lines == Sections(info, values))
  {
    var pre := Header(info, values) + (if values.feedbackType == "bug" then BugSections(values) else []);
    var foot := Footer(info, values);
    assert Sections(info, values) == pre + foot;
    JoinAppend(pre, foot, "\n");
    SplitConcat(Join(pre, "\n"), '\n', Join(foot, "\n"));
    FooterNoBreaks(info, values);
    JoinSplit(foot, '\n');
    var lines := Split(Join(pre, "\n"), '\n') + foot;
    assert Split(IssueBody(info, values), '\n') == lines;
    assert lines[|lines| - 10..] == foot;
  }

  /** Joined by newlines, sections without line breaks split back into the same sections. */
  lemma SectionsSplitBack(info: ExtensionInfo, values: FormValues)
    requires SingleLineFields(info, values)
    ensures Split(Join(Sections(info, values), "\n"), '\n') == Sections(info, values)
  {
    var head := Header(info, values);
    var bug := if values.feedbackType == "bug" then BugSections(values) else [];
    var foot := Footer(info, values);
    HeaderNoBreaks(info, values);
    BugSectionsNoBreaks(info, values);
    FooterNoBreaks(info, values);
    NoBreaksAppend(head, bug);
    NoBreaksAppend(head + bug, foot);
    assert Sections(info, values) == head + bug + foot;
    JoinSplit(Sections(info, values), '\n');
  }

  /** generateGitHubIssueUrl and createGitHubIssue: a copy of the defaults plus the type's label. */
  method IssueLabels(info: ExtensionInfo, feedbackType: string) returns (labels: seq<string>)
    ensures labels == Labels(info, feedbackType)
    ensures |labels| == |info.defaultLabels| + if feedbackType in ["bug", "feature"] then 1 else 0
    ensures labels[..|info.defaultLabels|] == info.defaultLabels
    ensures labels[|info.defaultLabels|..]
         == if feedbackType == "bug" then ["bug"]
            else if feedbackType == "feature" then ["enhancement"]
            else []
  {
    labels := info.defaultLabels;
    if feedbackType == "bug" {
      labels := labels + ["bug"];
    }
    if feedbackType == "feature" {
      labels := labels + ["enhancement"];
    }
  }

  /** The labels as a function, for the lemmas. */
  function Labels(info: ExtensionInfo, feedbackType: string): (labels: seq<string>)
    ensures |info.defaultLabels| <= |labels| <= |info.defaultLabels| + 1
    ensures labels[..|info.defaultLabels|] == info.defaultLabels
    ensures "bug" in labels[|info.defaultLabels|..] <==> feedbackType == "bug"
    ensures "enhancement" in labels[|info.defaultLabels|..] <==> feedbackType == "feature"
  {
    var added := if feedbackType == "bug" then ["bug"]
                 else if feedbackType == "feature" then ["enhancement"]
                 else [];
    assert (info.defaultLabels + added)[|info.defaultLabels|..] == added;
    info.defaultLabels + added
  }

  /** With the shipped defaults a feature request carries "enhancement" twice: nothing removes it. */
  lemma FeatureLabelsRepeatEnhancement()
    ensures Labels(Configured, "feature")
         == ["enhancement", "extension: extension-name-here", "enhancement"]
  {
  }

  /** `[${displayName}] ${title}`. */
  function IssueTitle(info: ExtensionInfo, values: FormValues): (title: string)
    ensures |title| == |info.displayName| + 3 + |values.title|
    ensures title[..|info.displayName| + 3] == "[" + info.displayName + "] "
    ensures title[|info.displayName| + 3..] == values.title
  {
    "[" + info.displayName + "] " + values.title
  }

  datatype ApiAnswer = Created | Rejected(message: Option<string>, status: int)

  datatype SubmitEffect =
    | CreateIssue(repo: string, title: string, body: string, labels: seq<string>, token: string)
    | OpenNewIssuePage(repo: string, title: string, body: string, labelList: string)
    | Toast(success: bool, title: string, message: string)
    | Copy(text: string)
    | PopToRoot

  /**
   * handleSubmit: with a non-empty token the issue is created through the API, otherwise the
   * prefilled page opens. The body is copied and the form closed after either, but not when the
   * API refuses the issue: then only the failure toast shows.
   */
  method HandleSubmit(info: ExtensionInfo, values: FormValues, token: Option<string>, answer: ApiAnswer)
    returns (effects: seq<SubmitEffect>)
    ensures var title := IssueTitle(info, values);
            var body := IssueBody(info, values);
            var labels := Labels(info, values.feedbackType);
            && |effects| >= 2
            && (token.Some? && token.value != "" ==>
                  effects[0] == CreateIssue(info.githubRepo, title, body, labels, token.value))
            && (token.None? || token.value == "" ==>
                  effects[0] == OpenNewIssuePage(info.githubRepo, title, body, Join(labels, ",")))
            && (Copy(body) in effects <==> !(token.Some? && token.value != "" && answer.Rejected?))
            && effects[1].Toast? && (effects[1].success <==> Copy(body) in effects)
  {
    var sections := IssueSections(info, values);
    var body := Join(sections, "\n");
    var title := IssueTitle(info, values);
    var labels := IssueLabels(info, values.feedbackType);
    assert labels == Labels(info, values.feedbackType) by {
      assert labels == labels[..|info.defaultLabels|] + labels[|info.defaultLabels|..];
    }
    effects := Deliver(info.githubRepo, title, body, labels, token, answer);
  }

  /** The issue goes out through the API or the browser, then the body is copied and the form closed. */
  method Deliver(repo: string, title: string, body: string, labels: seq<string>, token: Option<string>,
                 answer: ApiAnswer)
    returns (effects: seq<SubmitEffect>)
    ensures |effects| >= 2
    ensures token.Some? && token.value != "" ==> effects[0] == CreateIssue(repo, title, body, labels, token.value)
    ensures token.None? || token.value == "" ==> effects[0] == OpenNewIssuePage(repo, title, body, Join(labels, ","))
    ensures Copy(body) in effects <==> !(token.Some? && token.value != "" && answer.Rejected?)
    ensures effects[1].Toast? && (effects[1].success <==> Copy(body) in effects)
  {
    if token.Some? && token.value != "" {
      effects := [CreateIssue(repo, title, body, labels, token.value)];
      if answer.Rejected? {
        var message := OrElse(answer.message, "GitHub API error: " + IntToString(answer.status));
        effects := effects + [Toast(false, "Submission Failed", message)];
        assert |effects| == 2 && !effects[0].Copy? && !effects[1].Copy?;
        return;
      }
      effects := effects + [Toast(true, "Feedback Submitted", "Issue created in GitHub")];
    } else {
      effects := [OpenNewIssuePage(repo, title, body, Join(labels, ","))];
      effects := effects + [Toast(true, "Opening GitHub", "Complete the issue submission in your browser")];
    }
    effects := effects + [Copy(body), PopToRoot];
    assert effects[2] == Copy(body);
  }
}
