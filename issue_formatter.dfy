/** The GitHub issue a feedback report becomes: a title with the report kind and at most sixty
    characters of the description, two labels, and a markdown body built line by line, with a
    debug section for bug reports that carry debug data. The JSON dump of the stored game inside
    the debug section is not modelled: its text is a parameter. */
module IssueFormatter {
  import opened Strings
  import opened GameTypes
  import opened FeedbackLimiter

  /** The browser facts a bug report carries (the stored-game strings only feed the JSON dump). */
  datatype DebugData = DebugData(appVersion: string, userAgent: string, screenResolution: string, language: string)

  datatype FeedbackData = FeedbackData(
    kind: FeedbackKind, description: string, playerName: string,
    debugData: Option<DebugData>, timestamp: string)

  datatype GitHubIssue = GitHubIssue(title: string, body: string, labels: seq<string>)

  const TITLE_LENGTH: nat := 60
  const ELLIPSIS: string := "..."
  const FOOTER_RULE: string := "\n---\n"
  const FOOTER_NOTE: string := "*This issue was automatically created via the in-app feedback system.*"
  const FOOTER: string := FOOTER_RULE + FOOTER_NOTE

  function TitlePrefix(kind: FeedbackKind): string
  {
    if kind == Bug then "[Bug Report] " else "[Feature Request] "
  }

  /** The title: the kind's prefix, the description cut to sixty characters, and "..." exactly
      when something was cut. */
  function Title(kind: FeedbackKind, description: string): (t: string)
    ensures IsPrefix(TitlePrefix(kind), t)
    ensures |description| <= TITLE_LENGTH ==> t == TitlePrefix(kind) + description
    ensures |description| > TITLE_LENGTH ==>
      && |t| == |TitlePrefix(kind)| + TITLE_LENGTH + |ELLIPSIS|
      && t[|TitlePrefix(kind)|..|TitlePrefix(kind)| + TITLE_LENGTH] == description[..TITLE_LENGTH]
      && IsSuffix(ELLIPSIS, t)
  {
    var cut := Prefix(description, TITLE_LENGTH);
    var t := TitlePrefix(kind) + cut + (if |description| > TITLE_LENGTH then ELLIPSIS else "");
    assert t[..|TitlePrefix(kind)|] == TitlePrefix(kind);
    t
  }

  /** The labels: the kind's caption, then "user-reported". */
  function Labels(kind: FeedbackKind): (l: seq<string>)
    ensures |l| == 2 && l[1] == "user-reported"
    ensures kind == Bug ==> l[0] == "bug"
    ensures kind == Feature ==> l[0] == "enhancement"
  {
    if kind == Bug then ["bug", "user-reported"] else ["enhancement", "user-reported"]
  }

  /** `value || 'N/A'`: an empty value shows as N/A, any other value as itself. */
  function OrNA(value: string): (r: string)
    ensures r != []
    ensures value != [] ==> r == value
    ensures value == [] ==> r == "N/A"
  {
    if value == [] then "N/A" else value
  }

  const DEBUG_HEADER: string := "### Debug Information\n\n"
  const DETAILS_OPEN: string := "<details>\n"
  const SUMMARY: string := "<summary>Game State (localStorage)</summary>\n\n"
  const JSON_FENCE: string := "```json\n"
  const FENCE_CLOSE: string := "\n```\n"
  const DETAILS_CLOSE: string := "</details>\n"

  /** One `**caption** value` line of the debug section, with N/A for an empty value. */
  function FactLine(caption: string, value: string): (r: string)
    ensures IsPrefix(caption, r) && IsSuffix("\n", r)
    ensures |r| > |caption| + 1
  {
    var r := caption + OrNA(value) + "\n";
    assert r[..|caption|] == caption;
    r
  }

  /** formatDebugInformation, as the text it builds: the header, the four fact lines, and the
      dump inside a collapsed json block. */
  function DebugSection(d: DebugData, dump: string): string
  {
    DEBUG_HEADER
    + FactLine("**User Agent:** ", d.userAgent)
    + FactLine("**Screen Resolution:** ", d.screenResolution)
    + FactLine("**Language:** ", d.language)
    + FactLine("**App Version:** ", d.appVersion) + "\n"
    + DETAILS_OPEN + SUMMARY + JSON_FENCE + dump + FENCE_CLOSE + DETAILS_CLOSE
  }

  /** formatDebugInformation: the section grows by one appended piece at a time. */
  method FormatDebugInformation(d: DebugData, dump: string) returns (section: string)
    ensures section == DebugSection(d, dump)
  {
    section := DEBUG_HEADER;
    section := section + FactLine("**User Agent:** ", d.userAgent);
    section := section + FactLine("**Screen Resolution:** ", d.screenResolution);
    section := section + FactLine("**Language:** ", d.language);
    section := section + FactLine("**App Version:** ", d.appVersion) + "\n";
    section := section + DETAILS_OPEN;
    section := section + SUMMARY;
    section := section + JSON_FENCE;
    section := section + dump;
    section := section + FENCE_CLOSE;
    section := section + DETAILS_CLOSE;
  }

  function BodyHeader(kind: FeedbackKind): string
  {
    "## " + (if kind == Bug then "Bug Report" else "Feature Request") + "\n\n"
  }

  /** The header, submitter, timestamp and description that every body starts with. */
  function Lead(f: FeedbackData): string
  {
    BodyHeader(f.kind) + "**Submitted by:** " + f.playerName + "\n"
    + "**Timestamp:** " + f.timestamp + "\n\n"
    + "### Description\n\n" + f.description + "\n\n"
  }

  /** The debug section goes in exactly for a bug report with debug data. */
  predicate HasDebugSection(f: FeedbackData)
  {
    f.kind == Bug && f.debugData.Some?
  }

  /** A three-part concatenation starts with its first part, ends with its last, and holds its
      middle part in between. */
  lemma ThreeParts(a: string, b: string, c: string)
    ensures IsPrefix(a, a + b + c) && IsSuffix(c, a + b + c)
    ensures (a + b + c)[|a|..|a + b + c| - |c|] == b
  {
    var r := a + b + c;
    assert r[..|a|] == a;
    assert r[|r| - |c|..] == c;
  }

  /** The issue body: the lead, then the debug section when there is one, then the footer. */
  function IssueBody(f: FeedbackData, dump: string): (r: string)
    ensures |r| >= |Lead(f)| + |FOOTER|
    ensures IsPrefix(Lead(f), r) && IsSuffix(FOOTER, r)
    ensures HasDebugSection(f) ==> r[|Lead(f)|..|r| - |FOOTER|] == DebugSection(f.debugData.value, dump)
    ensures !HasDebugSection(f) ==> r == Lead(f) + FOOTER
  {
    var debug := if HasDebugSection(f) then DebugSection(f.debugData.value, dump) else "";
    ThreeParts(Lead(f), debug, FOOTER);
    Lead(f) + debug + FOOTER
  }

  /** The body opens with the report kind's header. */
  lemma BodyStartsWithHeader(f: FeedbackData, dump: string)
    ensures IsPrefix(BodyHeader(f.kind), IssueBody(f, dump))
  {
    var h := BodyHeader(f.kind);
    var x1 := h + "**Submitted by:** ";
    PrefixExtend(h, h, "**Submitted by:** ");
    var x2 := x1 + f.playerName;
    PrefixExtend(h, x1, f.playerName);
    var x3 := x2 + "\n";
    PrefixExtend(h, x2, "\n");
    var x4 := x3 + "**Timestamp:** ";
    PrefixExtend(h, x3, "**Timestamp:** ");
    var x5 := x4 + f.timestamp;
    PrefixExtend(h, x4, f.timestamp);
    var x6 := x5 + "\n\n";
    PrefixExtend(h, x5, "\n\n");
    var x7 := x6 + "### Description\n\n";
    PrefixExtend(h, x6, "### Description\n\n");
    var x8 := x7 + f.description;
    PrefixExtend(h, x7, f.description);
    var lead := x8 + "\n\n";
    PrefixExtend(h, x8, "\n\n");
    assert lead == Lead(f);
    var r := IssueBody(f, dump);
    assert r[..|lead|] == lead;
    assert r[..|h|] == lead[..|h|];
  }

  /** The description sits right after the fixed lines that precede it. */
  lemma DescriptionInBody(f: FeedbackData, dump: string)
    ensures var start := |BodyHeader(f.kind) + "**Submitted by:** " + f.playerName + "\n"
        + "**Timestamp:** " + f.timestamp + "\n\n" + "### Description\n\n"|;
      IssueBody(f, dump)[start..start + |f.description|] == f.description
  {
    var before := BodyHeader(f.kind) + "**Submitted by:** " + f.playerName + "\n"
      + "**Timestamp:** " + f.timestamp + "\n\n" + "### Description\n\n";
    var r := IssueBody(f, dump);
    assert Lead(f) == before + f.description + "\n\n";
    assert r[..|Lead(f)|] == Lead(f);
    assert Lead(f)[|before|..|before| + |f.description|] == f.description;
  }

  /** The footer's two pushes append the footer. */
  lemma FooterAppend(a: string)
    ensures a + FOOTER_RULE + FOOTER_NOTE == a + FOOTER
  {
  }

  /** formatFeedbackAsGitHubIssue: the body grows by one appended piece at a time. */
  method FormatFeedbackAsGitHubIssue(f: FeedbackData, dump: string) returns (issue: GitHubIssue)
    ensures issue.title == Title(f.kind, f.description)
    ensures issue.labels == Labels(f.kind)
    ensures issue.body == IssueBody(f, dump)
  {
    var title := Title(f.kind, f.description);
    var labels := Labels(f.kind);
    var body := "## " + (if f.kind == Bug then "Bug Report" else "Feature Request") + "\n\n";
    body := body + "**Submitted by:** " + f.playerName + "\n";
    body := body + "**Timestamp:** " + f.timestamp + "\n\n";
    body := body + "### Description\n\n" + f.description + "\n\n";
    assert body == Lead(f);
    ghost var debug := "";
    if f.kind == Bug && f.debugData.Some? {
      var section := FormatDebugInformation(f.debugData.value, dump);
      body := body + section;
      debug := section;
    }
    assert body == Lead(f) + debug;
    body := body + FOOTER_RULE;
    body := body + FOOTER_NOTE;
    FooterAppend(Lead(f) + debug);
    issue := GitHubIssue(title, body, labels);
  }
}
