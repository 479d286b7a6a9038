/** The routing of src/services/analyzer.ts: the confidence boost from the
    log store, the choice between the pull-request path and a plain issue,
    the issue titles and bodies, and the check-then-create filing against
    the issue store. */
module Analyzer {
  import opened Wrappers
  import opened Strings
  import opened Types
  import opened Patterns
  import opened GitHub

  /** The answers of the remote services for one run: the code host's file
      and code-search answers, the number of log lines the log store finds
      for a search text, and whether the open-issue listing and the issue
      creation requests fail. */
  datatype Remote = Remote(
    fetch: string -> FileResponse,
    search: string -> SearchResponse,
    logHits: string -> nat,
    listingFails: bool,
    createFails: bool)

  // ---------------------------------------------------------------------
  // analyzeError
  // ---------------------------------------------------------------------

  /** The text sent to the log store: the first line of the message, cut to
      50 characters. */
  function LogSearchTerm(message: string): (t: string)
    ensures t <= FirstLine(message) && t <= message && '\n' !in t
    ensures |t| == if |FirstLine(message)| <= 50 then |FirstLine(message)| else 50
  {
    FirstLinePrefix(message);
    Truncate(FirstLine(message), 50)
  }

  /** `Math.min(confidence + 0.1, 1.0)`. */
  function Boost(confidence: real): (r: real)
    ensures r <= 1.0
    ensures confidence <= 0.9 ==> r == confidence + 0.1
    ensures confidence <= 1.0 ==> confidence < r || r == 1.0
    ensures confidence >= 0.9 ==> r == 1.0
  {
    if confidence + 0.1 < 1.0 then confidence + 0.1 else 1.0
  }

  /** Whether `analyzeError` raises the confidence: only for events that do
      not come from the log store, and only when the log store finds lines
      for the message's first line. */
  predicate IsBoosted(e: ErrorEvent, remote: Remote) {
    e.source != CloudWatch && remote.logHits(LogSearchTerm(e.message)) > 0
  }

  /** `analyzeError`: the code search's answer, with its confidence boosted
      when the log store confirms the error. */
  function Analysis(owner: string, repo: string, e: ErrorEvent, remote: Remote): (r: Option<ErrorAnalysis>)
    ensures r.None? <==> CodeSearch(owner, repo, e.message, e.stackTrace, remote.fetch, remote.search).None?
    ensures r.Some? ==>
      var found := CodeSearch(owner, repo, e.message, e.stackTrace, remote.fetch, remote.search).value;
      && r.value == found.(confidence := r.value.confidence)
      && found.confidence <= r.value.confidence <= 1.0
      && (r.value.confidence == found.confidence <==> !IsBoosted(e, remote))
      && r.value.confidence in {0.6, 0.7, 0.8, 0.9}
  {
    match CodeSearch(owner, repo, e.message, e.stackTrace, remote.fetch, remote.search)
    case None => None
    case Some(found) =>
      if IsBoosted(e, remote) then Some(found.(confidence := Boost(found.confidence))) else Some(found)
  }

  /** `shouldCreatePR`: high confidence, a suggested fix and an affected file. */
  predicate ShouldCreatePR(a: ErrorAnalysis) {
    a.confidence > 0.8
    && a.suggestedFix.Some? && a.suggestedFix.value != ""
    && a.affectedFile.Some? && a.affectedFile.value != ""
  }

  /** The pull-request path is taken exactly for a fetched file whose
      confidence the log store raised; a code reference never takes it, nor
      does an event from the log store itself. */
  lemma PullRequestPathIff(owner: string, repo: string, e: ErrorEvent, remote: Remote)
    requires Analysis(owner, repo, e, remote).Some?
    ensures ShouldCreatePR(Analysis(owner, repo, e, remote).value) <==>
      Analysis(owner, repo, e, remote).value.errorType == "runtime_error" && IsBoosted(e, remote)
    ensures Analysis(owner, repo, e, remote).value.errorType == "code_reference" ==>
      !ShouldCreatePR(Analysis(owner, repo, e, remote).value)
    ensures e.source == CloudWatch ==> !ShouldCreatePR(Analysis(owner, repo, e, remote).value)
  {
    var found := CodeSearch(owner, repo, e.message, e.stackTrace, remote.fetch, remote.search);
    if found.value.errorType == "runtime_error" {
      assert found.value.affectedFile == Some(FileTarget(e.stackTrace).value.path);
    }
  }

  // ---------------------------------------------------------------------
  // Titles
  // ---------------------------------------------------------------------

  /** The message's first line, cut to 80 characters. */
  function TitleTail(message: string): (t: string)
    ensures t <= FirstLine(message) && t <= message && '\n' !in t
    ensures |t| == if |FirstLine(message)| <= 80 then |FirstLine(message)| else 80
  {
    FirstLinePrefix(message);
    Truncate(FirstLine(message), 80)
  }

  /** The title `createBasicIssue` files under. */
  function BasicTitle(message: string): (t: string)
    ensures "[Automated] Error detected: " <= t
  {
    "[Automated] Error detected: " + TitleTail(message)
  }

  /** The title `createDetailedIssue` files under. */
  function DetailedTitle(errorType: string, message: string): (t: string)
    ensures "[Automated] " + errorType + ": " <= t
  {
    "[Automated] " + errorType + ": " + TitleTail(message)
  }

  /** The title `processError` ends up filing under: the basic one without
      an analysis, the detailed one with it, on both the issue and the
      pull-request path. */
  function TitleFor(e: ErrorEvent, a: Option<ErrorAnalysis>): (t: string)
    ensures "[Automated] " <= t
  {
    if a.None? then BasicTitle(e.message) else DetailedTitle(a.value.errorType, e.message)
  }

  /** Two messages get the same basic title exactly when their title tails
      agree. */
  lemma BasicTitleInjective(m1: string, m2: string)
    ensures BasicTitle(m1) == BasicTitle(m2) <==> TitleTail(m1) == TitleTail(m2)
  {
    var n := |"[Automated] Error detected: "|;
    assert BasicTitle(m1)[n..] == TitleTail(m1);
    assert BasicTitle(m2)[n..] == TitleTail(m2);
  }

  /** For one error type, two messages get the same detailed title exactly
      when their title tails agree. */
  lemma DetailedTitleInjective(errorType: string, m1: string, m2: string)
    ensures DetailedTitle(errorType, m1) == DetailedTitle(errorType, m2) <==> TitleTail(m1) == TitleTail(m2)
  {
    var n := |"[Automated] " + errorType + ": "|;
    assert DetailedTitle(errorType, m1)[n..] == TitleTail(m1);
    assert DetailedTitle(errorType, m2)[n..] == TitleTail(m2);
  }

  /** A basic title never equals a detailed one, and the titles of the two
      analysis kinds never equal each other, whatever the messages: so the
      duplicate check of one path never matches an issue of another. */
  lemma TitleKindsDiffer(m1: string, m2: string)
    ensures BasicTitle(m1) != DetailedTitle("runtime_error", m2)
    ensures BasicTitle(m1) != DetailedTitle("code_reference", m2)
    ensures DetailedTitle("runtime_error", m1) != DetailedTitle("code_reference", m2)
  {
    assert BasicTitle(m1)[12] == 'E';
    assert DetailedTitle("runtime_error", m1)[12] == 'r';
    assert DetailedTitle("runtime_error", m2)[12] == 'r';
    assert DetailedTitle("code_reference", m2)[12] == 'c';
  }

  /** Two messages with the same first 80 characters of their first line
      get the same title, whatever follows. */
  lemma TitleIgnoresLaterLines(e: ErrorEvent, a: Option<ErrorAnalysis>, message: string)
    requires TitleTail(message) == TitleTail(e.message)
    ensures TitleFor(e.(message := message), a) == TitleFor(e, a)
  {
  }

  // ---------------------------------------------------------------------
  // generateIssueBody
  // ---------------------------------------------------------------------

  /** `error.severity || 'unknown'`. */
  function SeverityLabel(severity: Option<Severity>): (shown: string)
    ensures shown == "unknown" <==> severity.None?
  {
    match severity
    case None => "unknown"
    case Some(Error) => "error"
    case Some(Warning) => "warning"
    case Some(Critical) => "critical"
  }

  /** `text || fallback`: the text unless it is missing or empty. */
  function OrElse(text: Option<string>, fallback: string): (shown: string)
    ensures text.Some? && text.value != "" ==> shown == text.value
    ensures text.None? || text.value == "" ==> shown == fallback
  {
    if text.Some? && text.value != "" then text.value else fallback
  }

  /** `affectedLine || 'unknown'`: a line of zero counts as missing. */
  function LineLabel(line: Option<nat>): (shown: string)
    ensures line.Some? && line.value != 0 ==> shown == NatToDecimal(line.value)
    ensures line.None? || line.value == 0 ==> shown == "unknown"
  {
    if line.Some? && line.value != 0 then NatToDecimal(line.value) else "unknown"
  }

  /** The Analysis section for an analysis. */
  function AnalysisSection(a: ErrorAnalysis): (s: Section)
    ensures s.AnalysisBlock? && s.errorType == a.errorType && s.confidence == a.confidence
    ensures s.suggestedAction != ""
  {
    AnalysisBlock(a.errorType, OrElse(a.affectedFile, "unknown"), LineLabel(a.affectedLine),
      a.confidence, OrElse(a.suggestedFix, "Manual investigation required"))
  }

  /** `body += section` when `c` holds. */
  function AppendIf(body: seq<Section>, c: bool, section: Section): (r: seq<Section>)
    ensures forall s :: s in r <==> s in body || (c && s == section)
    ensures |r| == if c then |body| + 1 else |body|
    ensures body <= r
  {
    if c then body + [section] else body
  }

  predicate HasStackTrace(body: seq<Section>) {
    exists k :: 0 <= k < |body| && body[k].StackTraceBlock?
  }

  predicate HasAnalysis(body: seq<Section>) {
    exists k :: 0 <= k < |body| && body[k].AnalysisBlock?
  }

  predicate HasMetadata(body: seq<Section>) {
    exists k :: 0 <= k < |body| && body[k].MetadataBlock?
  }

  /** The sections of `generateIssueBody` for an event stamped `ms`. */
  function BodySections(e: ErrorEvent, a: Option<ErrorAnalysis>, ms: int): (body: seq<Section>)
    ensures 3 <= |body| <= 6 && body[|body| - 1] == Footer
    ensures body[0].Details? && body[0].source == e.source && body[0].timestampMs == ms && body[1] == MessageBlock(e.message)
  {
    var opening := [Details(e.source, SeverityLabel(e.severity), ms, OrElse(e.environment, "unknown")),
                    MessageBlock(e.message)];
    var withTrace := AppendIf(opening, e.stackTrace.Some? && e.stackTrace.value != "",
                              StackTraceBlock(e.stackTrace.GetOr("")));
    var withAnalysis := AppendIf(withTrace, a.Some?, if a.Some? then AnalysisSection(a.value) else Footer);
    var withMetadata := AppendIf(withAnalysis, e.metadata.Some?, MetadataBlock(e.metadata.GetOr(map[])));
    withMetadata + [Footer]
  }

  /** The sections before the footer. */
  lemma BodySectionsBeforeFooter(e: ErrorEvent, a: Option<ErrorAnalysis>, ms: int, s: Section)
    requires s in BodySections(e, a, ms)[..|BodySections(e, a, ms)| - 1]
    ensures s.Details? || s.MessageBlock?
      || (s.StackTraceBlock? && e.stackTrace.Some? && e.stackTrace.value != "")
      || (s.AnalysisBlock? && a.Some?)
      || (s.MetadataBlock? && e.metadata.Some?)
  {
    var body := BodySections(e, a, ms);
    var opening := [Details(e.source, SeverityLabel(e.severity), ms, OrElse(e.environment, "unknown")),
                    MessageBlock(e.message)];
    var withTrace := AppendIf(opening, e.stackTrace.Some? && e.stackTrace.value != "",
                              StackTraceBlock(e.stackTrace.GetOr("")));
    var withAnalysis := AppendIf(withTrace, a.Some?, if a.Some? then AnalysisSection(a.value) else Footer);
    var withMetadata := AppendIf(withAnalysis, e.metadata.Some?, MetadataBlock(e.metadata.GetOr(map[])));
    assert body[..|body| - 1] == withMetadata;
  }

  /** The sections of `generateIssueBody`, or `None` when rendering the
      timestamp throws, which `toISOString` does for an invalid date. */
  function IssueBody(e: ErrorEvent, a: Option<ErrorAnalysis>): (r: Option<seq<Section>>)
    ensures r.None? <==> e.timestamp.InvalidDate?
  {
    match e.timestamp
    case InvalidDate => None
    case Instant(ms) => Some(BodySections(e, a, ms))
  }

  /** The body opens with the details, whose severity and environment read
      "unknown" when missing, then the message; it ends with the footer and
      has no other. */
  lemma IssueBodyFrame(e: ErrorEvent, a: Option<ErrorAnalysis>)
    requires e.timestamp.Instant?
    ensures var body := IssueBody(e, a).value;
      && body[0] == Details(e.source, SeverityLabel(e.severity), e.timestamp.ms, OrElse(e.environment, "unknown"))
      && body[1] == MessageBlock(e.message)
      && body[|body| - 1] == Footer
      && forall k :: 0 <= k < |body| - 1 ==> !body[k].Footer?
  {
    var body := IssueBody(e, a).value;
    forall k | 0 <= k < |body| - 1
      ensures !body[k].Footer?
    {
      assert body[k] in body[..|body| - 1];
      BodySectionsBeforeFooter(e, a, e.timestamp.ms, body[k]);
    }
  }

  /** A Stack Trace section exactly when the event has a non-empty trace. */
  lemma IssueBodyStackTrace(e: ErrorEvent, a: Option<ErrorAnalysis>)
    requires e.timestamp.Instant?
    ensures HasStackTrace(IssueBody(e, a).value) <==> e.stackTrace.Some? && e.stackTrace.value != ""
  {
    var body := IssueBody(e, a).value;
    if e.stackTrace.Some? && e.stackTrace.value != "" {
      assert body[2].StackTraceBlock?;
    }
    if HasStackTrace(body) {
      var k :| 0 <= k < |body| && body[k].StackTraceBlock?;
      assert body[k] in body[..|body| - 1];
      BodySectionsBeforeFooter(e, a, e.timestamp.ms, body[k]);
    }
  }

  /** An Analysis section exactly when there is an analysis. */
  lemma IssueBodyAnalysis(e: ErrorEvent, a: Option<ErrorAnalysis>)
    requires e.timestamp.Instant?
    ensures HasAnalysis(IssueBody(e, a).value) <==> a.Some?
  {
    var body := IssueBody(e, a).value;
    if a.Some? {
      var k := |body| - (if e.metadata.Some? then 3 else 2);
      assert body[k].AnalysisBlock?;
    }
    if HasAnalysis(body) {
      var k :| 0 <= k < |body| && body[k].AnalysisBlock?;
      assert body[k] in body[..|body| - 1];
      BodySectionsBeforeFooter(e, a, e.timestamp.ms, body[k]);
    }
  }

  /** A Metadata section exactly when the event has metadata. */
  lemma IssueBodyMetadata(e: ErrorEvent, a: Option<ErrorAnalysis>)
    requires e.timestamp.Instant?
    ensures HasMetadata(IssueBody(e, a).value) <==> e.metadata.Some?
  {
    var body := IssueBody(e, a).value;
    if e.metadata.Some? {
      assert body[|body| - 2].MetadataBlock?;
    }
    if HasMetadata(body) {
      var k :| 0 <= k < |body| && body[k].MetadataBlock?;
      assert body[k] in body[..|body| - 1];
      BodySectionsBeforeFooter(e, a, e.timestamp.ms, body[k]);
    }
  }

  // ---------------------------------------------------------------------
  // Filing
  // ---------------------------------------------------------------------

  /** The open issues after `createBasicIssue` or `createDetailedIssue` try
      to file under `title`: unchanged when a listed open issue already has
      that title, when the body cannot be rendered, or when the creation
      request fails; otherwise one more issue with the default labels. */
  function Filed(issues: seq<Issue>, title: string, e: ErrorEvent, a: Option<ErrorAnalysis>, remote: Remote)
    : (r: seq<Issue>)
    ensures issues <= r && |r| <= |issues| + 1
    ensures !remote.listingFails && title in NewestTitles(issues, ListingPageSize) ==> r == issues
    ensures |r| == |issues| + 1 <==>
      && (remote.listingFails || title !in NewestTitles(issues, ListingPageSize))
      && e.timestamp.Instant? && !remote.createFails
    ensures |r| == |issues| + 1 ==> r[|issues|] == Issue(title, IssueBody(e, a).value, DefaultLabels)
  {
    if !remote.listingFails && title in NewestTitles(issues, ListingPageSize) then issues
    else
      match IssueBody(e, a)
      case None => issues
      case Some(body) => if remote.createFails then issues else issues + [Issue(title, body, DefaultLabels)]
  }

  /** The open issues after `processError`: the analysis decides the title,
      and the issue is filed under it. */
  function IssuesAfter(owner: string, repo: string, issues: seq<Issue>, e: ErrorEvent, remote: Remote)
    : (r: seq<Issue>)
    ensures issues <= r && |r| <= |issues| + 1
    ensures |r| == |issues| + 1 ==>
      && "[Automated] " <= r[|issues|].title
      && r[|issues|].labels == DefaultLabels
  {
    var a := Analysis(owner, repo, e, remote);
    Filed(issues, TitleFor(e, a), e, a, remote)
  }

  /** An event whose timestamp is not a valid date files nothing: rendering
      the body throws, and `processError` swallows the error. */
  lemma InvalidTimestampFilesNothing(owner: string, repo: string, issues: seq<Issue>, e: ErrorEvent, remote: Remote)
    requires e.timestamp.InvalidDate?
    ensures IssuesAfter(owner, repo, issues, e, remote) == issues
  {
  }

  /** Processing the same event a second time files nothing more: the issue
      the first run filed is the newest, so the listing shows its title. */
  lemma {:induction false} ProcessTwiceFilesOnce(owner: string, repo: string, issues: seq<Issue>, e: ErrorEvent, remote: Remote)
    requires !remote.listingFails
    ensures var once := IssuesAfter(owner, repo, issues, e, remote);
      IssuesAfter(owner, repo, once, e, remote) == once
  {
    var a := Analysis(owner, repo, e, remote);
    var title := TitleFor(e, a);
    var once := IssuesAfter(owner, repo, issues, e, remote);
    if |once| == |issues| + 1 {
      var listed := NewestTitles(once, ListingPageSize);
      assert listed[0] == once[|once| - 1].title == title;
    } else {
      assert once == issues;
    }
  }

  /** Without a working listing the duplicate check always answers no, so
      every run with a valid timestamp and a working creation request files
      a new issue, the same one again. */
  lemma ListingFailureFilesAgain(owner: string, repo: string, issues: seq<Issue>, e: ErrorEvent, remote: Remote)
    requires remote.listingFails && !remote.createFails && e.timestamp.Instant?
    ensures var once := IssuesAfter(owner, repo, issues, e, remote);
      && |once| == |issues| + 1
      && IssuesAfter(owner, repo, once, e, remote) == once + [once[|issues|]]
  {
  }

  /** The routing machine, holding the issue store it files into. */
  class ErrorAnalyzer {
    const github: GitHubService

    constructor(github: GitHubService)
      ensures this.github == github
    {
      this.github := github;
    }

    /** `analyzeError`: the code search, then the log-store boost. */
    method AnalyzeError(e: ErrorEvent, remote: Remote) returns (r: Option<ErrorAnalysis>)
      ensures r == Analysis(github.owner, github.repo, e, remote)
    {
      var codeAnalysis := github.SearchCodeForError(e.message, e.stackTrace, remote.fetch, remote.search);
      if codeAnalysis.None? {
        return None;
      }
      var analysis := codeAnalysis.value;
      if e.source != CloudWatch {
        var relatedLogs := remote.logHits(LogSearchTerm(e.message));
        if relatedLogs > 0 {
          analysis := analysis.(confidence := Boost(analysis.confidence));
        }
      }
      return Some(analysis);
    }

    /** `generateIssueBody`, appending section after section. */
    method GenerateIssueBody(e: ErrorEvent, a: Option<ErrorAnalysis>) returns (body: Option<seq<Section>>)
      ensures body == IssueBody(e, a)
    {
      if e.timestamp.InvalidDate? {
        return None;
      }
      var sections := [Details(e.source, SeverityLabel(e.severity), e.timestamp.ms, OrElse(e.environment, "unknown")),
                       MessageBlock(e.message)];
      var hasTrace := e.stackTrace.Some? && e.stackTrace.value != "";
      if hasTrace {
        sections := sections + [StackTraceBlock(e.stackTrace.value)];
      }
      if a.Some? {
        sections := sections + [AnalysisSection(a.value)];
      }
      if e.metadata.Some? {
        sections := sections + [MetadataBlock(e.metadata.value)];
      }
      sections := sections + [Footer];
      return Some(sections);
    }

    /** Files under `title` unless a listed open issue already has it; a body
      that cannot be rendered throws. */
    method FileUnlessListed(title: string, e: ErrorEvent, a: Option<ErrorAnalysis>, remote: Remote)
      returns (outcome: Outcome)
      modifies github
      ensures github.openIssues == Filed(old(github.openIssues), title, e, a, remote)
      ensures outcome.Thrown? <==>
        (remote.listingFails || title !in NewestTitles(old(github.openIssues), ListingPageSize))
        && e.timestamp.InvalidDate?
    {
      var found := github.CheckIfIssueExists(title, remote.listingFails);
      if found {
        return Completed;
      }
      var body := GenerateIssueBody(e, a);
      if body.None? {
        return Thrown("RangeError: Invalid time value");
      }
      var created := github.CreateIssue(title, body.value, DefaultLabels, remote.createFails);
      return Completed;
    }

    /** `createBasicIssue`. */
    method CreateBasicIssue(e: ErrorEvent, remote: Remote) returns (outcome: Outcome)
      modifies github
      ensures github.openIssues == Filed(old(github.openIssues), BasicTitle(e.message), e, None, remote)
    {
      outcome := FileUnlessListed(BasicTitle(e.message), e, None, remote);
    }

    /** `createDetailedIssue`. */
    method CreateDetailedIssue(e: ErrorEvent, a: ErrorAnalysis, remote: Remote) returns (outcome: Outcome)
      modifies github
      ensures github.openIssues
        == Filed(old(github.openIssues), DetailedTitle(a.errorType, e.message), e, Some(a), remote)
    {
      outcome := FileUnlessListed(DetailedTitle(a.errorType, e.message), e, Some(a), remote);
    }

    /** `createAutomatedPR`: renders a pull-request description, whose
      timestamp throws for an invalid date, then files the detailed issue
      instead of a pull request. */
    method CreateAutomatedPR(e: ErrorEvent, a: ErrorAnalysis, remote: Remote) returns (outcome: Outcome)
      modifies github
      ensures github.openIssues
        == Filed(old(github.openIssues), DetailedTitle(a.errorType, e.message), e, Some(a), remote)
      ensures e.timestamp.InvalidDate? ==> outcome.Thrown?
    {
      if e.timestamp.InvalidDate? {
        return Thrown("RangeError: Invalid time value");
      }
      outcome := CreateDetailedIssue(e, a, remote);
    }

    /** `processError`: analyse, then file a basic issue without an analysis
      and a detailed one with it, through the pull-request path or not. An
      error thrown on the way is caught here. */
    method ProcessError(e: ErrorEvent, remote: Remote)
      modifies github
      ensures github.openIssues == IssuesAfter(github.owner, github.repo, old(github.openIssues), e, remote)
    {
      var analysis := AnalyzeError(e, remote);
      var outcome: Outcome;
      if analysis.None? {
        outcome := CreateBasicIssue(e, remote);
        return;
      }
      if ShouldCreatePR(analysis.value) {
        outcome := CreateAutomatedPR(e, analysis.value, remote);
      } else {
        outcome := CreateDetailedIssue(e, analysis.value, remote);
      }
    }
  }
}
