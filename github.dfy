/** The code-location heuristics of src/services/github.ts: the suggested-fix
    rules, the decision tree of `searchCodeForError` over the answers of the
    code host, and the issue store that `checkIfIssueExists` reads and
    `createIssue` appends to. */
module GitHub {
  import opened Wrappers
  import opened Strings
  import opened Types
  import opened Patterns

  /** What `repos.getContent` answers for a path: a file with its base64
      text and that text decoded, something that is not a file (a directory
      listing or a link), or a failed request. */
  datatype FileResponse = FileData(encoded: string, decoded: string) | NotAFile | FetchFailed

  /** What `search.code` answers: the paths of the hits in rank order, or a
      failed request. */
  datatype SearchResponse = SearchHits(paths: seq<string>) | SearchFailed

  /** An issue as filed: its title, the sections of its body and its labels. */
  datatype Issue = Issue(title: string, body: seq<Section>, labels: seq<string>)

  /** The labels `createIssue` uses when it is given none. */
  const DefaultLabels: seq<string> := ["bug", "automated"]

  /** The number of open issues one listing request returns. */
  const ListingPageSize: nat := 100

  // ---------------------------------------------------------------------
  // Suggested fixes
  // ---------------------------------------------------------------------

  /** The suggestions `analyzeSuggestedFix` can make, in the order it tries
      them. */
  datatype Rule = NullCheck | TypeGuard | CheckImport | ReviewLine(line: nat) {
    function Text(): (t: string)
      ensures |t| > 0
    {
      match this
      case NullCheck => NullCheckText
      case TypeGuard => TypeGuardText
      case CheckImport => CheckImportText
      case ReviewLine(n) => "Review code around line " + NatToDecimal(n)
    }

    function Rank(): nat {
      match this
      case NullCheck => 0
      case TypeGuard => 1
      case CheckImport => 2
      case ReviewLine(_) => 3
    }
  }

  /** The texts of the suggestions, and the text used when none applies. */
  const NullCheckText := "Add null/undefined checks before accessing properties"
  const TypeGuardText := "Verify variable types and add type guards"
  const CheckImportText := "Check if the method exists and is properly imported"
  const DefaultFix := "Review the affected code section"

  /** `if (c) suggestions.push(rule)` on the rules fired so far. */
  function PushIf(fired: seq<Rule>, c: bool, rule: Rule): (r: seq<Rule>)
    ensures forall x :: x in r <==> x in fired || (c && x == rule)
  {
    if c then fired + [rule] else fired
  }

  /** The rules that fire for a message, a file's text and a line number, in
      the order `analyzeSuggestedFix` pushes them. */
  function FixRules(message: string, content: string, line: Option<nat>): (r: seq<Rule>)
    ensures |r| <= 4
  {
    var afterNull := PushIf([], Includes(message, "null") || Includes(message, "undefined"), NullCheck);
    var afterType := PushIf(afterNull, Includes(message, "TypeError"), TypeGuard);
    var afterImport := PushIf(afterType, Includes(message, "not a function"), CheckImport);
    PushIf(afterImport, line.Some? && line.value != 0 && content != "", ReviewLine(line.GetOr(0)))
  }

  /** Each rule fires exactly under its condition. */
  lemma FixRulesFire(message: string, content: string, line: Option<nat>)
    ensures var r := FixRules(message, content, line);
      && (NullCheck in r <==> Includes(message, "null") || Includes(message, "undefined"))
      && (TypeGuard in r <==> Includes(message, "TypeError"))
      && (CheckImport in r <==> Includes(message, "not a function"))
      && (forall n: nat :: ReviewLine(n) in r <==> line == Some(n) && n != 0 && content != "")
  {
  }

  /** Ranks strictly increase along the list, so no rule appears twice. */
  predicate Ordered(rules: seq<Rule>) {
    forall i, j :: 0 <= i < j < |rules| ==> rules[i].Rank() < rules[j].Rank()
  }

  lemma PushIfOrdered(fired: seq<Rule>, c: bool, rule: Rule)
    requires Ordered(fired)
    requires forall k :: 0 <= k < |fired| ==> fired[k].Rank() < rule.Rank()
    ensures Ordered(PushIf(fired, c, rule))
  {
  }

  /** The rules that fire keep their fixed order and none repeats. */
  lemma {:induction false} FixRulesOrdered(message: string, content: string, line: Option<nat>)
    ensures Ordered(FixRules(message, content, line))
  {
    var afterNull := PushIf([], Includes(message, "null") || Includes(message, "undefined"), NullCheck);
    var afterType := PushIf(afterNull, Includes(message, "TypeError"), TypeGuard);
    var afterImport := PushIf(afterType, Includes(message, "not a function"), CheckImport);
    PushIfOrdered([], Includes(message, "null") || Includes(message, "undefined"), NullCheck);
    PushIfOrdered(afterNull, Includes(message, "TypeError"), TypeGuard);
    PushIfOrdered(afterType, Includes(message, "not a function"), CheckImport);
    PushIfOrdered(afterImport, line.Some? && line.value != 0 && content != "", ReviewLine(line.GetOr(0)));
  }

  /** The texts of a list of rules. */
  function Texts(rules: seq<Rule>): (r: seq<string>)
    ensures |r| == |rules|
    ensures forall k :: 0 <= k < |rules| ==> r[k] == rules[k].Text()
  {
    if rules == [] then [] else [rules[0].Text()] + Texts(rules[1..])
  }

  /** Pushing a rule pushes its text. */
  lemma TextsPushIf(fired: seq<Rule>, c: bool, rule: Rule)
    ensures Texts(PushIf(fired, c, rule)) == if c then Texts(fired) + [rule.Text()] else Texts(fired)
  {
    if c {
      TextsAppend(fired, rule);
    }
  }

  lemma {:induction false} TextsAppend(rules: seq<Rule>, rule: Rule)
    ensures Texts(rules + [rule]) == Texts(rules) + [rule.Text()]
  {
    if rules != [] {
      assert (rules + [rule])[1..] == rules[1..] + [rule];
      TextsAppend(rules[1..], rule);
    }
  }

  /** `suggestions.join('. ') || 'Review the affected code section'`, when
      the first suggestion is not empty: the default when there are none,
      and otherwise the join, which opens with the first. */
  function JoinOrDefault(suggestions: seq<string>): (fix: string)
    requires suggestions != [] ==> |suggestions[0]| > 0
    ensures |fix| > 0
    ensures suggestions == [] ==> fix == DefaultFix
    ensures suggestions != [] ==> fix == JoinWith(suggestions, ". ") && suggestions[0] <= fix
  {
    if suggestions == [] then DefaultFix
    else
      JoinWithStartsWithFirst(suggestions, ". ");
      JoinWith(suggestions, ". ")
  }

  /** No suggestion text opens the default text, so a fix that starts with
      a suggestion is never the default. */
  lemma TextNeverOpensDefault(rule: Rule)
    ensures !(rule.Text() <= DefaultFix)
  {
    if rule.ReviewLine? {
      assert rule.Text()[7] == 'c' && DefaultFix[7] == 't';
    } else {
      assert |rule.Text()| > |DefaultFix|;
    }
  }

  /** What `analyzeSuggestedFix` returns: the texts of the rules that fire
      joined with ". ", opening with the first of them, or the default
      exactly when no rule fires. */
  function SuggestedFix(message: string, content: string, line: Option<nat>): (fix: string)
    ensures |fix| > 0
    ensures fix == DefaultFix <==> FixRules(message, content, line) == []
    ensures var rules := FixRules(message, content, line);
      rules != [] ==> fix == JoinWith(Texts(rules), ". ") && rules[0].Text() <= fix
  {
    var rules := FixRules(message, content, line);
    if rules == [] then JoinOrDefault([])
    else
      TextNeverOpensDefault(rules[0]);
      JoinOrDefault(Texts(rules))
  }

  // ---------------------------------------------------------------------
  // The decision tree of searchCodeForError
  // ---------------------------------------------------------------------

  /** The file and line to fetch: the location in a non-empty stack trace,
      provided its path is still non-empty once the leading slash is gone. */
  function FileTarget(stackTrace: Option<string>): (r: Option<FileLocation>)
    ensures r.Some? <==> stackTrace.Some? && stackTrace.value != ""
                         && ExtractFileLocation(stackTrace.value).Some?
                         && ExtractFileLocation(stackTrace.value).value.path != ""
    ensures r.Some? ==> r == ExtractFileLocation(stackTrace.value) && r.value.path != ""
    ensures r.Some? ==> forall k :: 0 <= k < |r.value.path| ==> IsPathChar(r.value.path[k])
  {
    if stackTrace.Some? && stackTrace.value != "" then
      var loc := ExtractFileLocation(stackTrace.value);
      if loc.Some? && loc.value.path != "" then loc else None
    else None
  }

  /** `'content' in data && data.content`: a file whose content is non-empty. */
  predicate IsFileHit(response: FileResponse) {
    response.FileData? && response.encoded != ""
  }

  /** The query `searchCodeForError` sends for a search term. */
  function SearchQuery(owner: string, repo: string, term: string): (q: string)
    ensures term <= q
  {
    term + " repo:" + owner + "/" + repo
  }

  /** `searchCodeForError`: a located file that the code host returns gives
      a runtime error at confidence 0.8 with a suggested fix; otherwise the
      first hit of a code search for the message's search term gives a code
      reference at confidence 0.6; otherwise nothing. A failed fetch falls
      through to the search and a failed search gives nothing. */
  function CodeSearch(owner: string, repo: string, message: string, stackTrace: Option<string>,
                      fetch: string -> FileResponse, search: string -> SearchResponse): (r: Option<ErrorAnalysis>)
    ensures r.Some? && r.value.errorType == "runtime_error" <==>
      FileTarget(stackTrace).Some? && IsFileHit(fetch(FileTarget(stackTrace).value.path))
    ensures r.Some? && r.value.errorType == "runtime_error" ==>
      && r.value.affectedFile == Some(FileTarget(stackTrace).value.path)
      && r.value.affectedLine == Some(FileTarget(stackTrace).value.line)
      && r.value.suggestedFix == Some(SuggestedFix(message, fetch(FileTarget(stackTrace).value.path).decoded,
                                                   Some(FileTarget(stackTrace).value.line)))
      && r.value.suggestedFix.value != ""
      && r.value.confidence == 0.8
    ensures r.Some? && r.value.errorType != "runtime_error" ==>
      && r.value.errorType == "code_reference"
      && ExtractSearchTerms(message).Some?
      && search(SearchQuery(owner, repo, ExtractSearchTerms(message).value)).SearchHits?
      && |search(SearchQuery(owner, repo, ExtractSearchTerms(message).value)).paths| > 0
      && r.value.affectedFile == Some(search(SearchQuery(owner, repo, ExtractSearchTerms(message).value)).paths[0])
      && r.value.affectedLine.None? && r.value.suggestedFix.None?
      && r.value.confidence == 0.6
    ensures r.None? && ExtractSearchTerms(message).Some? ==>
      var response := search(SearchQuery(owner, repo, ExtractSearchTerms(message).value));
      response.SearchFailed? || response.paths == []
  {
    var target := FileTarget(stackTrace);
    if target.Some? && IsFileHit(fetch(target.value.path)) then
      var content := fetch(target.value.path).decoded;
      Some(ErrorAnalysis("runtime_error", Some(target.value.path), Some(target.value.line),
        Some(SuggestedFix(message, content, Some(target.value.line))), 0.8))
    else
      match ExtractSearchTerms(message)
      case None => None
      case Some(term) =>
        match search(SearchQuery(owner, repo, term))
        case SearchHits(paths) =>
          if |paths| > 0 then Some(ErrorAnalysis("code_reference", Some(paths[0]), None, None, 0.6)) else None
        case SearchFailed => None
  }

  /** Without a stack trace the code host is never asked for a file: the
      answer does not depend on what a fetch would return. */
  lemma NoTraceNoFetch(owner: string, repo: string, message: string,
                       fetch1: string -> FileResponse, fetch2: string -> FileResponse,
                       search: string -> SearchResponse)
    ensures CodeSearch(owner, repo, message, None, fetch1, search)
         == CodeSearch(owner, repo, message, None, fetch2, search)
  {
    assert FileTarget(None).None?;
  }

  /** A fetched file's suggestion mentions the line number when the file has
      text and the line is not zero. */
  lemma RuntimeErrorSuggestsLine(owner: string, repo: string, message: string, stackTrace: Option<string>,
                                 fetch: string -> FileResponse, search: string -> SearchResponse)
    requires FileTarget(stackTrace).Some?
    requires fetch(FileTarget(stackTrace).value.path).FileData?
    requires fetch(FileTarget(stackTrace).value.path).encoded != ""
    requires fetch(FileTarget(stackTrace).value.path).decoded != ""
    requires FileTarget(stackTrace).value.line != 0
    ensures CodeSearch(owner, repo, message, stackTrace, fetch, search).Some?
    ensures ReviewLine(FileTarget(stackTrace).value.line)
      in FixRules(message, fetch(FileTarget(stackTrace).value.path).decoded, Some(FileTarget(stackTrace).value.line))
    ensures CodeSearch(owner, repo, message, stackTrace, fetch, search).value.suggestedFix
      == Some(SuggestedFix(message, fetch(FileTarget(stackTrace).value.path).decoded, Some(FileTarget(stackTrace).value.line)))
  {
  }

  // ---------------------------------------------------------------------
  // The open-issue listing
  // ---------------------------------------------------------------------

  /** The titles of the newest `n` issues of a list kept oldest first, newest
      first: the first page of the code host's listing, which is sorted by
      creation time, newest first. */
  function NewestTitles(issues: seq<Issue>, n: nat): (r: seq<string>)
    ensures |r| == if n < |issues| then n else |issues|
    ensures forall k :: 0 <= k < |r| ==> r[k] == issues[|issues| - 1 - k].title
  {
    if n == 0 || issues == [] then []
    else [issues[|issues| - 1].title] + NewestTitles(issues[..|issues| - 1], n - 1)
  }

  /** A title is listed exactly when one of the newest `n` issues carries it. */
  lemma {:induction false} ListedIffAmongNewest(issues: seq<Issue>, n: nat, title: string)
    ensures title in NewestTitles(issues, n) <==>
      exists k :: |issues| - n <= k < |issues| && 0 <= k && issues[k].title == title
  {
    var r := NewestTitles(issues, n);
    if title in r {
      var i :| 0 <= i < |r| && r[i] == title;
      assert issues[|issues| - 1 - i].title == title;
    }
    if k :| |issues| - n <= k < |issues| && 0 <= k && issues[k].title == title {
      assert r[|issues| - 1 - k] == title;
    }
  }

  /** The duplicate check can miss: an open issue with the title that is
      older than the newest page is not seen. */
  lemma OlderDuplicateIsMissed(issues: seq<Issue>, title: string)
    requires |issues| > ListingPageSize
    requires issues[0].title == title
    requires forall k :: 0 < k < |issues| ==> issues[k].title != title
    ensures title !in NewestTitles(issues, ListingPageSize)
  {
    ListedIffAmongNewest(issues, ListingPageSize, title);
  }

  /** `data.some(issue => issue.title === title)`: an exact, case-sensitive
      comparison of titles. */
  predicate SomeTitleEquals(listed: seq<string>, title: string) {
    title in listed
  }

  /** The store of open issues on the code host, kept oldest first. */
  class GitHubService {
    const owner: string
    const repo: string
    var openIssues: seq<Issue>

    constructor(owner: string, repo: string, openIssues: seq<Issue>)
      ensures this.owner == owner && this.repo == repo && this.openIssues == openIssues
    {
      this.owner := owner;
      this.repo := repo;
      this.openIssues := openIssues;
    }

    /** The titles one listing request returns. */
    function ListedTitles(): seq<string>
      reads this
    {
      NewestTitles(openIssues, ListingPageSize)
    }

    /** `analyzeSuggestedFix`: pushes the text of each rule that fires,
      then joins them. */
    method AnalyzeSuggestedFix(message: string, content: string, line: Option<nat>) returns (fix: string)
      ensures fix == SuggestedFix(message, content, line)
    {
      var suggestions: seq<string> := [];
      ghost var fired: seq<Rule> := [];

      var nullish := Includes(message, "null") || Includes(message, "undefined");
      if nullish {
        suggestions := suggestions + [NullCheck.Text()];
      }
      TextsPushIf(fired, nullish, NullCheck);
      fired := PushIf(fired, nullish, NullCheck);

      var typeError := Includes(message, "TypeError");
      if typeError {
        suggestions := suggestions + [TypeGuard.Text()];
      }
      TextsPushIf(fired, typeError, TypeGuard);
      fired := PushIf(fired, typeError, TypeGuard);

      var notAFunction := Includes(message, "not a function");
      if notAFunction {
        suggestions := suggestions + [CheckImport.Text()];
      }
      TextsPushIf(fired, notAFunction, CheckImport);
      fired := PushIf(fired, notAFunction, CheckImport);

      var hasLine := line.Some? && line.value != 0 && content != "";
      if hasLine {
        suggestions := suggestions + [ReviewLine(line.value).Text()];
      }
      TextsPushIf(fired, hasLine, ReviewLine(line.GetOr(0)));
      fired := PushIf(fired, hasLine, ReviewLine(line.GetOr(0)));

      fix := JoinOrDefault(suggestions);
    }

    /** `searchCodeForError`, asking `fetch` for files and `search` for code. */
    method SearchCodeForError(message: string, stackTrace: Option<string>,
                              fetch: string -> FileResponse, search: string -> SearchResponse)
      returns (r: Option<ErrorAnalysis>)
      ensures r == CodeSearch(owner, repo, message, stackTrace, fetch, search)
    {
      var filePath: Option<string> := None;
      var lineNumber: nat := 0;
      if stackTrace.Some? && stackTrace.value != "" {
        var fileMatch := ExtractFileLocation(stackTrace.value);
        if fileMatch.Some? {
          filePath := Some(fileMatch.value.path);
          lineNumber := fileMatch.value.line;
        }
      }

      if filePath.Some? && filePath.value != "" {
        var response := fetch(filePath.value);
        if response.FileData? && response.encoded != "" {
          var fix := AnalyzeSuggestedFix(message, response.decoded, Some(lineNumber));
          return Some(ErrorAnalysis("runtime_error", filePath, Some(lineNumber), Some(fix), 0.8));
        }
      }

      var searchQuery := ExtractSearchTerms(message);
      if searchQuery.None? {
        return None;
      }
      var response := search(SearchQuery(owner, repo, searchQuery.value));
      if response.SearchHits? && |response.paths| > 0 {
        return Some(ErrorAnalysis("code_reference", Some(response.paths[0]), None, None, 0.6));
      }
      return None;
    }

    /** `checkIfIssueExists`: whether a listed open issue has exactly this
      title; a failed listing answers no. */
    method CheckIfIssueExists(title: string, listingFails: bool) returns (found: bool)
      ensures found <==> !listingFails && title in ListedTitles()
    {
      if listingFails {
        return false;
      }
      found := SomeTitleEquals(ListedTitles(), title);
    }

    /** `createIssue`: files a new open issue unless the request fails, and
      reports whether it did. */
    method CreateIssue(title: string, body: seq<Section>, labels: seq<string>, createFails: bool)
      returns (created: bool)
      modifies this
      ensures created == !createFails
      ensures openIssues == old(openIssues) + (if created then [Issue(title, body, labels)] else [])
      ensures created ==> title in ListedTitles()
    {
      if createFails {
        return false;
      }
      openIssues := openIssues + [Issue(title, body, labels)];
      assert ListedTitles()[0] == title;
      return true;
    }
  }
}
