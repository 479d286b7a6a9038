# Error-monitoring issue filer, modelled in Dafny

This project models the rule-based core of an error-monitoring service. The
service takes error reports from a chat-ops webhook and from an
error-tracker webhook, and normalises them into error events. It then looks
for the offending code on a code host, raises its confidence when the log
store confirms the error, and files an issue on the code host unless an open
issue with the same title already exists. Its "pull request" path always
ends in filing an issue.

The model covers the chat-ops webhook parser (`webhook.dfy`) and the
error-tracker webhook parser (`sentry.dfy`). It has hand-written scanners for
the regular expressions of the code search (`patterns.dfy`), and the
code-search decision tree with its suggested-fix rules and the open-issue
store (`github.dfy`). It also covers the analyzer's routing, titles, issue
bodies and check-then-create filing (`analyzer.dfy`). `pipeline.dfy` holds
properties of the parts working together. `strings.dfy` models the
JavaScript string operations the service uses, `types.dfy` the records it
passes around, and `wrappers.dfy` holds `Option`.

How the model is built:

- **Remote services are inputs.** The code host's file fetch and code search,
  the log store's hit count, and the failure of the listing or creation
  requests are bundled in `Analyzer.Remote`. The clock reading and
  `new Date(text)` are parameters of the parsers.
- **The issue store is a class.** `GitHub.GitHubService` holds the open issues
  in `openIssues`, oldest first. One listing request returns the newest 100
  titles, because the code host sorts its listing by creation time, newest
  first. `CheckIfIssueExists` reads that listing and `CreateIssue` appends to
  the store.
- **Operations that change state are methods.** `HandleSlackWebhook`,
  `AnalyzeSuggestedFix`, `SearchCodeForError`, `AnalyzeError`,
  `GenerateIssueBody` and the filing methods are written the way the source
  runs them: step by step, with pushes, `+=` and in-place updates. Each is
  proved equal to a specification function, and the properties are proved
  about those functions.
- **Regular expressions are hand-written scanners.** Each scanner explores
  the pattern's alternatives in JavaScript's backtracking order, so the first
  match found is the one JavaScript captures. `\w` is `[A-Za-z0-9_]` and `\s`
  is JavaScript's full white-space set. Case-insensitive matching and
  `toLowerCase` fold only the letters A to Z. For the words involved this
  changes nothing. A non-ASCII character never folds to an ASCII letter in a
  non-unicode regular expression. The only non-ASCII characters that
  `toLowerCase` turns into ASCII letters are U+0130, which gives "i" followed
  by U+0307, and U+212A, which gives "k". Neither can complete "error",
  "exception", "failed", "critical" or "warning".
- **Confidence is a `real`.** The service only produces 0.6 and 0.8 and adds
  0.1 up to 1.0. In JavaScript 0.8 + 0.1 is 0.9000000000000001, which changes
  no `> 0.8` comparison.
- **Issue bodies are lists of sections.** A section records the values that
  the Markdown template would print.

In three places the code does something other than what a reader of the
service's purpose would expect. The model follows the code:

- **Search term for a `TypeError`.** One would expect the message
  "TypeError: Cannot read property 'foo' of undefined" to yield the search
  term "foo", since a "Cannot read property" pattern exists to capture that
  property name. The code yields "TypeError": `(\w+Error):` is tried before the
  "Cannot read property" pattern, and the message contains neither "at" nor
  "function". `Patterns.SearchTermFromFirstMatchingPattern` proves the rule
  this follows from. The concrete message is not evaluated.
- **Issue titles.** One would expect a title to carry the first 80
  characters of the message. The code uses the message's first line, cut to
  80 characters (`Analyzer.TitleTail`).
- **The line-number suggestion.** One would expect "Review code around
  line N" to be suggested whenever a line number is known. The code also requires a
  non-zero line and a non-empty file (`GitHub.FixRulesFire`).

One consequence of the code is proved rather than changed.
`Pipeline.CodeSearchReadsFirstKeptFrame` shows that a trace rendered by the
error-tracker parser leads the code search to the file and line of the
*first* kept frame. The same parser records the *last* kept frame as the
affected file. The lemma holds when the first kept frame's function name
has no white space and its file name has no ':', '(' or ')' and is neither
empty nor just "/". A file name as the error tracker commonly reports it,
such as `app:///main.js`, breaks the second condition: the stack-trace
pattern cannot capture that frame's file and line, and a location, if
any, is read from a later frame's text.

## Model

| member | source | states |
|---|---|---|
| Strings.Lower | src/handlers/webhook.ts:19-21 | lower-casing keeps the length and lower-cases each character |
| Strings.LowerKeepsOccurrence | src/handlers/webhook.ts:19-21 | lower-casing a text keeps every occurrence of a word, as the lower-cased word at the same index |
| Strings.IncludesOccurs | src/handlers/webhook.ts:19-21 | `includes` holds exactly when the text occurs at some index |
| Strings.Truncate | src/services/analyzer.ts:76 | `substring(0, n)` is a prefix of the text: the whole text when it has at most n characters, exactly n characters otherwise |
| Strings.SplitOn | src/services/analyzer.ts:32 | `split` yields at least one piece, no piece holds the separator, and joining the pieces with the separator gives the text back |
| Strings.FirstLinePrefix | src/services/analyzer.ts:32 | the first line is a prefix of the message, followed by a line feed unless it is the whole message |
| Strings.JoinWithSnoc | src/handlers/webhook.ts:41-44 | joining one more part appends the separator and that part |
| Strings.JoinWithStartsWithFirst | src/handlers/webhook.ts:28 | a join starts with its first part |
| Strings.SplitJoinRoundTrip | src/services/sentry.ts:30-32 | splitting a join of line-feed-free lines gives the lines back |
| Strings.NatToDecimal | src/services/sentry.ts:31 | a rendered line number is a non-empty run of digits |
| Strings.DecimalRoundTrip | src/services/github.ts:28 | `parseInt` of a rendered line number gives the number back |
| Webhook.IsErrorText | src/handlers/webhook.ts:19-21 | the definition: the lower-cased text includes "error", "exception" or "failed"; `Webhook.ErrorWordInAnyCase` states its case-insensitivity |
| Webhook.ErrorWordInAnyCase | src/handlers/webhook.ts:19-21 | a text containing an error word in any letter case, such as "Error" or "FAILED", is an error text |
| Webhook.AttachmentTexts | src/handlers/webhook.ts:41-44 | at most one line per attachment, each a non-empty text of some attachment, and exactly one per attachment when every attachment has a non-empty text |
| Webhook.FieldMap | src/handlers/webhook.ts:45-49 | every metadata key holds a value, and the last field's title holds the last field's value |
| Webhook.WriteFields | src/handlers/webhook.ts:45-49 | writing one attachment's fields over the record built so far gives the record of all fields written so far |
| Webhook.HandleSlackWebhook | src/handlers/webhook.ts:12-59 | no event iff the lower-cased text has none of "error", "exception", "failed"; a missing text gives no event; otherwise a chat-ops event at the clock reading, with no stack trace; the message is the text followed by each non-empty attachment text on its own line, so it starts with the text; the metadata is built from the fields; severity is critical when "critical" occurs, else warning when "warning" occurs, else error |
| Webhook.MessageStep | src/handlers/webhook.ts:41-44 | each attachment with a non-empty text adds that text to the message as a new line, and other attachments leave it unchanged |
| Webhook.AllFieldsAppend | src/handlers/webhook.ts:41-50 | fields are taken in attachment order, then field order |
| Webhook.FieldMapKeys | src/handlers/webhook.ts:45-49 | the metadata keys are exactly the field titles |
| Webhook.FieldMapLastWins | src/handlers/webhook.ts:45-49 | a key holds the value of the last field with that title |
| Webhook.ValidateWebhookSignature | src/handlers/webhook.ts:70-74 | every signature, payload and secret is accepted |
| Sentry.IsRelevant | src/services/sentry.ts:25 | the definition: a non-empty file name that does not include "node_modules"; `Sentry.RelevantFramesMembers` states that the filter keeps exactly these frames |
| Sentry.RelevantFrames | src/services/sentry.ts:25 | the kept frames are no more than the frames, and each has a non-empty file name outside `node_modules` |
| Sentry.RelevantFramesAppend | src/services/sentry.ts:25 | filtering keeps the frames' relative order |
| Sentry.RelevantFramesMembers | src/services/sentry.ts:25 | a frame is kept exactly when it is present and relevant |
| Sentry.FrameLine | src/services/sentry.ts:31 | the definition: "  at ", the function name or "anonymous", " (", the file name, ":", the line number and ")"; `Pipeline.FrameLineLayout`, `Sentry.FrameLineSingleLine` and `Pipeline.FrameLineTail` state its layout and what the code search reads from it |
| Sentry.FrameLines | src/services/sentry.ts:30-31 | one rendered line per kept frame, in order |
| Sentry.ParseWebhookEvent | src/services/sentry.ts:11-49 | no event iff there is no issue; otherwise an error-tracker event with the issue title as message and no environment; severity is error iff the level is exactly "error", warning otherwise; no stack trace and no affected file iff no frame is kept; the stack trace is the kept frames' rendered lines joined with line feeds; the timestamp is the parsed event timestamp when it is non-empty, and the clock reading otherwise |
| Sentry.AffectedFileIsLastRelevant | src/services/sentry.ts:27-29 | the affected file is the last kept frame's file, non-empty and not under `node_modules` |
| Sentry.MetadataRecordsIssue | src/services/sentry.ts:42-48 | the metadata has exactly the keys issueId, culprit, eventId, affectedFile and type, holding the issue id, culprit, event id and type tag |
| Sentry.TimestampDefaultsToNow | src/services/sentry.ts:38 | without an event timestamp the event is stamped with the clock reading |
| Sentry.FrameLineSingleLine | src/services/sentry.ts:31 | a rendered frame line has no line feed when the function and file names have none |
| Sentry.TraceHasOneLinePerFrame | src/services/sentry.ts:30-32 | the trace splits back into exactly one line per kept frame, in order |
| Patterns.RunEnd | src/services/github.ts:25 | a greedy run ends at the first character outside the class |
| Patterns.FrameAt | src/services/github.ts:25 | a match of the stack-trace pattern at one start index captures a non-empty path without ':', '(' or ')' and a non-empty run of digits |
| Patterns.FindFrame | src/services/github.ts:25 | the scan over start indexes returns a capture of the same shape, and that capture is the match at some start index from where the scan began |
| Patterns.FindFrameFailsOnlyWithoutMatch | src/services/github.ts:25 | the stack-trace pattern is found nowhere only if it matches at no start index |
| Patterns.FindFrameIsLeftmost | src/services/github.ts:25 | the stack-trace pattern's match is the one at the first start index that matches |
| Patterns.StripLeadingSlash | src/services/github.ts:27 | `replace(/^\//, '')` removes one leading '/' and leaves any other path unchanged |
| Patterns.ExtractFileLocation | src/services/github.ts:24-29 | a location is extracted exactly when the stack-trace pattern matches at some start index; the extracted path has no ':', '(' or ')'; it is the captured path with a single leading '/' removed, and the line is the captured digits' value |
| Patterns.MatchAt | src/services/github.ts:94 | a search-term pattern's capture at one start index is a non-empty run of word characters |
| Patterns.Search | src/services/github.ts:94 | the scan over start indexes returns a capture of the same shape |
| Patterns.SearchFindsMatch | src/services/github.ts:94 | a capture the search returns is the pattern's match at some start index from where the search began |
| Patterns.SearchIsLeftmost | src/services/github.ts:94 | a search-term pattern's capture comes from the first start index that matches |
| Patterns.SearchFailsOnlyWithoutMatch | src/services/github.ts:94-95 | a search-term pattern fails only if it matches at no index |
| Patterns.FirstPatternMatch | src/services/github.ts:93-98 | the pattern loop returns a non-empty run of word characters when it returns a capture; `Patterns.FirstPatternWins` and `Patterns.NoPatternMatches` state which capture |
| Patterns.FirstPatternWins | src/services/github.ts:93-98 | the first pattern that matches decides, and later patterns are not consulted |
| Patterns.NoPatternMatches | src/services/github.ts:93-98 | the pattern loop finds nothing iff no pattern matches |
| Patterns.WordsFrom | src/services/github.ts:101 | `split(/\s+/)` yields non-empty words free of white space |
| Patterns.WordStarts | src/services/github.ts:101 | the indices where a word begins (a non-space character at the reading point or after a space), increasing, and all of them |
| Patterns.WordsFromAtWordStarts | src/services/github.ts:101 | the words are exactly the maximal non-space runs at the word starts, one per start, in the order of the starts |
| Patterns.WordsFromAreWords | src/services/github.ts:101 | every word is the whole non-space run at some word start |
| Patterns.WordsFromComplete | src/services/github.ts:101 | every non-space run at a word start is among the words |
| Patterns.FirstLongWord | src/services/github.ts:101-102 | the fallback is the first word longer than three characters, and there is none when every word is shorter |
| Patterns.ExtractSearchTerms | src/services/github.ts:83-103 | a search term, when there is one, is never empty |
| Patterns.SearchTermFromFirstMatchingPattern | src/services/github.ts:85-98 | the term is the capture of the first of the five patterns, in their fixed order, that matches |
| Patterns.SearchTermFallback | src/services/github.ts:100-102 | when no pattern matches, the term is the first long whitespace-separated word |
| GitHub.FixRules | src/services/github.ts:107-123 | at most four suggestions fire; `GitHub.FixRulesFire` and `GitHub.FixRulesOrdered` state which and in what order |
| GitHub.FixRulesFire | src/services/github.ts:109-123 | each suggestion fires exactly under its condition; the line suggestion needs a non-zero line and non-empty file text |
| GitHub.FixRulesOrdered | src/services/github.ts:107-123 | the suggestions that fire keep the fixed order null/undefined, TypeError, not a function, line, and none repeats |
| GitHub.Texts | src/services/github.ts:109-123 | one text per rule, the k-th being the k-th rule's text |
| GitHub.JoinOrDefault | src/services/github.ts:125 | the default text when there are no suggestions, and otherwise the suggestions joined with ". ", opening with the first; never empty |
| GitHub.TextNeverOpensDefault | src/services/github.ts:125 | no suggestion text is a prefix of the default text |
| GitHub.TextsAppend | src/services/github.ts:109-123 | pushing a rule appends its text to the suggestions |
| GitHub.SuggestedFix | src/services/github.ts:105-126 | the suggestion is never empty; it is the default text exactly when no rule fires, and otherwise the texts of the rules that fire joined with ". ", starting with the first rule's text |
| GitHub.GitHubService.AnalyzeSuggestedFix | src/services/github.ts:105-126 | the pushes and the join compute the specified suggestion |
| GitHub.FileTarget | src/services/github.ts:24-33 | a file is fetched exactly for a non-empty trace in which a location is extracted with a non-empty path; the target is then that location, whose path is free of ':', '(' and ')' |
| GitHub.SearchQuery | src/services/github.ts:63 | the query starts with the search term |
| GitHub.CodeSearch | src/services/github.ts:18-81 | runtime_error iff a located file is fetched with content, and then it carries that file and line, confidence 0.8 and the suggested fix for the message, the fetched text and that line, which is never empty; anything else is a code_reference to the first search hit at 0.6 with no line or fix; nothing when there is no term, no hit or a failed search |
| GitHub.NoTraceNoFetch | src/services/github.ts:24-33 | without a stack trace the answer does not depend on the file fetch |
| GitHub.RuntimeErrorSuggestsLine | src/services/github.ts:41-48 | a fetched file with text and a non-zero line gets the line suggestion |
| GitHub.GitHubService.SearchCodeForError | src/services/github.ts:18-81 | the step-by-step search computes the specified decision |
| GitHub.NewestTitles | src/services/github.ts:240-245 | the listing holds up to 100 titles, newest first |
| GitHub.ListedIffAmongNewest | src/services/github.ts:240-247 | a title is listed exactly when one of the newest 100 open issues carries it |
| GitHub.OlderDuplicateIsMissed | src/services/github.ts:240-247 | an open issue older than the newest 100 is not seen by the duplicate check |
| GitHub.GitHubService.CheckIfIssueExists | src/services/github.ts:238-252 | true iff the listing succeeds and a listed title equals the title exactly; false when the listing fails |
| GitHub.GitHubService.CreateIssue | src/services/github.ts:128-144 | appends one issue with the title, body and labels unless the request fails, and the new title is then listed |
| Analyzer.LogSearchTerm | src/services/analyzer.ts:31-33 | the log search text is a prefix of the message's first line, hence line-feed-free: the whole line when it has at most 50 characters, exactly 50 otherwise |
| Analyzer.IsBoosted | src/services/analyzer.ts:29-38 | the definition: the event is not from the log store and the log store finds lines for the search text; `Analyzer.Analysis` states that the confidence changes exactly then |
| Analyzer.Boost | src/services/analyzer.ts:37 | the boost adds 0.1 and never goes above 1.0; a confidence of at most 1.0 is never lowered |
| Analyzer.Analysis | src/services/analyzer.ts:15-42 | nothing iff the code search finds nothing; otherwise the code search's answer with only the confidence changed, which never decreases, never exceeds 1.0, changes exactly when the event is not from the log store and the log store finds lines, and is one of 0.6, 0.7, 0.8, 0.9 |
| Analyzer.ErrorAnalyzer.AnalyzeError | src/services/analyzer.ts:15-42 | the in-place boost computes the specified analysis |
| Analyzer.ShouldCreatePR | src/services/analyzer.ts:68-73 | the definition: confidence above 0.8, a non-empty suggested fix and a non-empty affected file; `Analyzer.PullRequestPathIff` states when it holds |
| Analyzer.PullRequestPathIff | src/services/analyzer.ts:68-73 | the pull-request path is taken iff the analysis is a runtime_error that the log store confirmed; a code_reference or a log-store event never takes it |
| Analyzer.TitleTail | src/services/analyzer.ts:76 | the title's tail is a prefix of the message's first line, hence line-feed-free: the whole line when it has at most 80 characters, exactly 80 otherwise |
| Analyzer.BasicTitle | src/services/analyzer.ts:76 | the basic title starts with "[Automated] Error detected: " |
| Analyzer.DetailedTitle | src/services/analyzer.ts:89 | the detailed title starts with "[Automated] ", the error type and ": " |
| Analyzer.BasicTitleInjective | src/services/analyzer.ts:76-82 | two messages get the same basic title exactly when their title tails agree |
| Analyzer.DetailedTitleInjective | src/services/analyzer.ts:89-95 | for one error type, two messages get the same detailed title exactly when their title tails agree |
| Analyzer.TitleKindsDiffer | src/services/analyzer.ts:76-95 | a basic title never equals a runtime_error or code_reference title, and those two never equal each other, so one path's duplicate check never matches another path's issue |
| Analyzer.TitleFor | src/services/analyzer.ts:49-62 | every filed title starts with "[Automated] " |
| Analyzer.TitleIgnoresLaterLines | src/services/analyzer.ts:76-89 | messages with the same title tail get the same title |
| Analyzer.SeverityLabel | src/services/analyzer.ts:150 | the severity reads "unknown" iff it is missing |
| Analyzer.OrElse | src/services/analyzer.ts:152 | a missing or empty text reads as the fallback, otherwise as itself |
| Analyzer.LineLabel | src/services/analyzer.ts:174 | a missing or zero line reads "unknown" |
| Analyzer.AnalysisSection | src/services/analyzer.ts:170-179 | the Analysis section carries the error type and confidence and a non-empty suggested action |
| Analyzer.BodySections | src/services/analyzer.ts:143-197 | three to six sections: the details with the event's source and time, then the message, and last the footer |
| Analyzer.BodySectionsBeforeFooter | src/services/analyzer.ts:143-197 | every section before the footer is the details, the message, or a stack trace, analysis or metadata section whose source is present |
| Analyzer.IssueBody | src/services/analyzer.ts:143-197 | no body iff the timestamp is an invalid date, whose rendering throws |
| Analyzer.IssueBodyFrame | src/services/analyzer.ts:144-158 | the body opens with the details and the message and ends with the only footer |
| Analyzer.IssueBodyStackTrace | src/services/analyzer.ts:160-167 | a Stack Trace section iff the trace is non-empty |
| Analyzer.IssueBodyAnalysis | src/services/analyzer.ts:169-180 | an Analysis section iff there is an analysis |
| Analyzer.IssueBodyMetadata | src/services/analyzer.ts:182-189 | a Metadata section iff the event has metadata |
| Analyzer.ErrorAnalyzer.GenerateIssueBody | src/services/analyzer.ts:143-197 | appending section after section builds the specified body |
| Analyzer.Filed | src/services/analyzer.ts:75-99 | at most one issue is added and nothing else changes; nothing when a listed issue has the title; exactly one when the title is not listed or the listing fails, the date is valid and creation succeeds, and it has that title, the body and the default labels |
| Analyzer.ErrorAnalyzer.FileUnlessListed | src/services/analyzer.ts:78-85 | check-then-create changes the store as specified, and throws exactly when the title is not listed and the date is invalid |
| Analyzer.ErrorAnalyzer.CreateBasicIssue | src/services/analyzer.ts:75-86 | files under the basic title as specified |
| Analyzer.ErrorAnalyzer.CreateDetailedIssue | src/services/analyzer.ts:88-99 | files under the detailed title as specified |
| Analyzer.ErrorAnalyzer.CreateAutomatedPR | src/services/analyzer.ts:101-141 | files the detailed issue and nothing else, and throws for an invalid date |
| Analyzer.IssuesAfter | src/services/analyzer.ts:44-66 | processing adds at most one issue, titled "[Automated] ..." with the default labels, and never a pull request |
| Analyzer.ErrorAnalyzer.ProcessError | src/services/analyzer.ts:44-66 | routing through the basic, detailed or pull-request path changes the store as specified, and catches every error |
| Analyzer.InvalidTimestampFilesNothing | src/services/analyzer.ts:63-65 | an event with an invalid date files nothing |
| Analyzer.ProcessTwiceFilesOnce | src/services/analyzer.ts:78-82 | processing the same event twice files at most one issue |
| Analyzer.ListingFailureFilesAgain | src/services/github.ts:248-251 | with a failing listing, each run files the same issue again |
| Pipeline.FrameLineLayout | src/services/sentry.ts:31 | a rendered frame line is "  at ", the function label, " (", the file name, ":", the digits and ")", at the stated positions |
| Pipeline.LazyGroupSkipsWord | src/services/github.ts:25 | the lazy `.*?` of the stack-trace pattern passes over a word without matching inside it |
| Pipeline.FrameLineTail | src/services/github.ts:25 | after the parenthesis of a rendered frame line, `([^:()]+):(\d+)` captures the frame's file name and digits |
| Pipeline.FirstLineLocation | src/services/github.ts:25 | on text opening with a rendered frame line whose function name has no white space and whose file name is non-empty and has no ':', '(' or ')', the stack-trace pattern captures that frame's file name and digits |
| Pipeline.CodeSearchReadsFirstKeptFrame | src/services/sentry.ts:27-32 | when the first kept frame's function name has no white space and its file name has no ':', '(' or ')' and is neither empty nor just "/", the code search reads that frame's file and line, while the affected file is the last kept frame's |
| Pipeline.TracelessEventsFileIssues | src/services/github.ts:24-54 | an event without a stack trace never yields a runtime_error, so it never takes the pull-request path |

## Left out

- Network calls, authentication and logging (Octokit, the AWS log client, `consola`) are not modelled. Their answers are the inputs in `Analyzer.Remote`.
- The log search and code search are modelled as total answers. A failed code search is `SearchFailed`. The log search returns an empty list on failure, so a failure is a zero hit count.
- `createPullRequest` is not modelled: it is a chain of remote Git calls with no local logic, and it is never called.
- `SentryService.fetchIssueDetails`, the log store's `fetchRecentErrors`, the HTTP server, the entry points and configuration loading are not part of this model.
- The pull-request description text is not modelled. `Analyzer.ErrorAnalyzer.CreateAutomatedPR` keeps only the fact that rendering its timestamp throws for an invalid date. The branch name built from `Date.now()` is not modelled.
- The Markdown text of issue bodies is not modelled. `Analyzer.IssueBody` keeps the sections and the values they print. The `toISOString` rendering, the `toFixed` percentage and `JSON.stringify` of the metadata are not modelled.
- Concurrency is not modelled, in particular the race between the duplicate check and issue creation when two events are processed at once.
- The issue number that `createIssue` returns is not modelled. `GitHub.GitHubService.CreateIssue` returns only whether an issue was created.
- Case folding covers only A to Z. As explained above, this changes nothing for the keywords the service looks for.
- String lengths count characters, not UTF-16 code units. `substring(0, 80)` and `substring(0, 50)` can split a surrogate pair in JavaScript; that is not modelled.
- `parseInt` is modelled exactly. JavaScript loses precision for digit runs longer than 15 digits; that is not modelled.
- A Slack field titled `__proto__` is not modelled: JavaScript would not create a key for it.
- Sentry frames whose `function` or `lineno` is null are not modelled. A missing function name is the empty string, and line numbers are natural numbers.
- Base64 decoding of fetched files is left to the fetch oracle, which gives both the encoded and the decoded text.
- Patterns.ExtractSearchTerms: the concrete example "TypeError: Cannot read property 'foo' of undefined" is not evaluated, because unfolding the scanners over that literal is too costly for the verifier. The general ordering rule is proved in `Patterns.SearchTermFromFirstMatchingPattern`.
