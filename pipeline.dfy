/** Properties of the parts working together: what the code search reads
    from a trace the error-tracker parser rendered, and which events can
    reach the pull-request path. */
module Pipeline {
  import opened Wrappers
  import opened Strings
  import opened Types
  import opened Sentry
  import opened Patterns
  import opened GitHub
  import opened Analyzer

  predicate NoSpaces(t: string) {
    forall k :: 0 <= k < |t| ==> !IsSpace(t[k])
  }

  predicate PathSafe(t: string) {
    forall k :: 0 <= k < |t| ==> IsPathChar(t[k])
  }

  /** Where the parts of a rendered frame line sit: "  at ", the function
      name from index 5, " (" at `q`, the file name from `q + 2`, ':' at
      `c`, the line's digits and ')'. */
  lemma FrameLineLayout(f: SentryFrame)
    ensures var line := FrameLine(f);
      var name := FunctionLabel(f);
      var digits := NatToDecimal(f.lineno);
      var q := 5 + |name|;
      var c := q + 2 + |f.filename|;
      && |line| == c + |digits| + 2
      && line[0] == ' ' && line[1] == ' ' && line[2] == 'a' && line[3] == 't' && line[4] == ' '
      && (forall k :: 0 <= k < |name| ==> line[5 + k] == name[k])
      && line[q] == ' ' && line[q + 1] == '('
      && line[q + 2..c] == f.filename
      && line[c] == ':'
      && line[c + 1..c + 1 + |digits|] == digits
      && line[c + 1 + |digits|] == ')'
  {
    var name := FunctionLabel(f);
    var digits := NatToDecimal(f.lineno);
    var p1 := "  at " + name;
    var p2 := p1 + " (";
    var p3 := p2 + f.filename;
    var p4 := p3 + ":";
    var p5 := p4 + digits;
    assert FrameLine(f) == p5 + ")";
    var q := 5 + |name|;
    var c := q + 2 + |f.filename|;
    assert p3[q + 2..c] == f.filename;
    assert p5[c + 1..c + 1 + |digits|] == digits;
  }

  /** The lazy `.*?` of the stack-trace pattern walks over a run of
      non-space characters without matching inside it. */
  lemma LazyGroupSkipsWord(s: string, p: nat, q: nat)
    requires p <= q <= |s|
    requires forall k :: p <= k < q ==> !IsSpace(s[k])
    ensures LazyGroup(s, p) == LazyGroup(s, q)
  {
    var group := (k: nat) => if k <= |s| then LazyGroup(s, k) else None;
    forall k | p <= k < q
      ensures group(k) == group(k + 1)
    {
      LazyGroupStep(s, k);
    }
    SameAlongRange(group, p, q);
  }

  /** One step of `LazyGroupSkipsWord`: at a non-space character the group's
      `\s+` cannot start, and `.*?` takes the character. */
  lemma LazyGroupStep(s: string, p: nat)
    requires p < |s| && !IsSpace(s[p])
    ensures LazyGroup(s, p) == LazyGroup(s, p + 1)
  {
    assert RunEnd(s, p, IsSpace) == p;
    assert GroupSpaces(s, p, p).None?;
    assert !IsLineTerminator(s[p]);
  }

  /** `([^:()]+):(\d+)` at `a` over a run of path characters up to a colon
      at `c` followed by a run of digits up to `d`. */
  lemma LocationAtRuns(s: string, a: nat, c: nat, d: nat)
    requires a < c && c + 1 < d < |s|
    requires forall k :: a <= k < c ==> IsPathChar(s[k])
    requires s[c] == ':'
    requires forall k :: c + 1 <= k < d ==> IsDigit(s[k])
    requires !IsDigit(s[d])
    ensures LocationAt(s, a) == Some(Location(s[a..c], s[c + 1..d]))
  {
    assert RunEnd(s, a, IsPathChar) == c;
    assert RunEnd(s, c + 1, IsDigit) == d;
  }

  /** The group `.*?\s+` that reaches a single space followed by '(' goes on
      to the location after the parenthesis. */
  lemma LazyGroupAtParen(s: string, q: nat)
    requires q + 2 <= |s| && s[q] == ' ' && s[q + 1] == '('
    requires LocationAt(s, q + 2).Some?
    ensures LazyGroup(s, q) == LocationAt(s, q + 2)
  {
    assert RunEnd(s, q, IsSpace) == q + 1;
    assert GroupSpaces(s, q, q + 1) == AfterParen(s, q + 1);
  }

  /** Text opening with two spaces, "at", a single space and then a group
      that matches: the pattern matches first at index 2, with that group. */
  lemma OpeningFrame(s: string, found: Option<Location>)
    requires |s| > 5
    requires s[0] == ' ' && s[1] == ' ' && s[2] == 'a' && s[3] == 't' && s[4] == ' ' && !IsSpace(s[5])
    requires found.Some? && LazyGroup(s, 5) == found
    ensures FindFrame(s, 0) == found
  {
    assert !OccursAt(s, "at", 0) && !OccursAt(s, "in", 0);
    assert !OccursAt(s, "at", 1) && !OccursAt(s, "in", 1);
    assert OccursAt(s, "at", 2) by { assert s[2..4] == "at"; }
    assert RunEnd(s, 4, IsSpace) == 5;
    assert FrameAt(s, 2) == found;
    FindFrameIsLeftmost(s, 0, 2);
  }

  /** The characters of a text that opens with a rendered frame line. */
  lemma TraceOpening(s: string, f: SentryFrame)
    requires FrameLine(f) <= s
    ensures var q := 5 + |FunctionLabel(f)|;
      var c := q + 2 + |f.filename|;
      var d := c + 1 + |NatToDecimal(f.lineno)|;
      && d < |s|
      && s[0] == ' ' && s[1] == ' ' && s[2] == 'a' && s[3] == 't' && s[4] == ' '
      && s[q] == ' ' && s[q + 1] == '('
      && s[q + 2..c] == f.filename
      && s[c] == ':'
      && s[c + 1..d] == NatToDecimal(f.lineno)
      && s[d] == ')'
  {
    FrameLineLayout(f);
    var line := FrameLine(f);
    var q := 5 + |FunctionLabel(f)|;
    var c := q + 2 + |f.filename|;
    var d := c + 1 + |NatToDecimal(f.lineno)|;
    assert s[..|line|] == line;
    assert s[q + 2..c] == line[q + 2..c];
    assert s[c + 1..d] == line[c + 1..d];
  }

  /** The function name in a text that opens with a rendered frame line. */
  lemma TraceOpeningName(s: string, f: SentryFrame)
    requires FrameLine(f) <= s
    ensures 5 + |FunctionLabel(f)| <= |s|
    ensures forall k :: 5 <= k < 5 + |FunctionLabel(f)| ==> s[k] == FunctionLabel(f)[k - 5]
  {
    FrameLineLayout(f);
    var line := FrameLine(f);
    forall k | 5 <= k < 5 + |FunctionLabel(f)|
      ensures s[k] == FunctionLabel(f)[k - 5]
    {
      assert s[k] == line[k];
    }
  }

  /** In text that opens with a rendered frame line whose file name has no
      ':', '(' or ')', the tail `([^:()]+):(\d+)` after the parenthesis
      captures that line's file name and digits. */
  lemma FrameLineTail(s: string, f: SentryFrame)
    requires FrameLine(f) <= s
    requires PathSafe(f.filename) && f.filename != ""
    ensures 7 + |FunctionLabel(f)| <= |s|
    ensures LocationAt(s, 7 + |FunctionLabel(f)|) == Some(Location(f.filename, NatToDecimal(f.lineno)))
  {
    TraceOpening(s, f);
    var digits := NatToDecimal(f.lineno);
    var q := 5 + |FunctionLabel(f)|;
    var c := q + 2 + |f.filename|;
    var d := c + 1 + |digits|;
    LocationFromSlices(s, q + 2, c, d, f.filename, digits);
  }

  /** `([^:()]+):(\d+)` at `a` over a path, a colon and a digit run that is
      followed by a non-digit. */
  lemma LocationFromSlices(s: string, a: nat, c: nat, d: nat, path: string, digits: string)
    requires a < c && c + 1 < d < |s|
    requires s[a..c] == path && PathSafe(path)
    requires s[c] == ':'
    requires s[c + 1..d] == digits && AllDigits(digits)
    requires !IsDigit(s[d])
    ensures LocationAt(s, a) == Some(Location(path, digits))
  {
    SliceChars(s, a, c, path, IsPathChar);
    SliceChars(s, c + 1, d, digits, IsDigit);
    LocationAtRuns(s, a, c, d);
  }

  /** A slice equal to text whose characters all satisfy `p`. */
  lemma SliceChars(s: string, a: nat, b: nat, t: string, p: char -> bool)
    requires a <= b <= |s| && s[a..b] == t
    requires forall k :: 0 <= k < |t| ==> p(t[k])
    ensures forall k :: a <= k < b ==> p(s[k])
  {
    forall k | a <= k < b
      ensures p(s[k])
    {
      assert s[k] == t[k - a];
    }
  }

  /** The same capture, reached by the group `.*?\s+` at the space before
      the parenthesis. */
  lemma GroupAtFrameLocation(s: string, f: SentryFrame)
    requires FrameLine(f) <= s
    requires PathSafe(f.filename) && f.filename != ""
    ensures 5 + |FunctionLabel(f)| <= |s|
    ensures LazyGroup(s, 5 + |FunctionLabel(f)|) == Some(Location(f.filename, NatToDecimal(f.lineno)))
  {
    FrameLineLayout(f);
    var line := FrameLine(f);
    var q := 5 + |FunctionLabel(f)|;
    assert s[q] == line[q] && s[q + 1] == line[q + 1];
    FrameLineTail(s, f);
    LazyGroupAtParen(s, q);
  }

  /** In text that opens with a rendered frame line whose function name
      has no white space and whose file name has no ':', '(' or ')', the
      stack-trace pattern captures that line's file name and digits. */
  lemma FirstLineLocation(s: string, f: SentryFrame)
    requires FrameLine(f) <= s
    requires NoSpaces(FunctionLabel(f)) && PathSafe(f.filename) && f.filename != ""
    ensures FindFrame(s, 0) == Some(Location(f.filename, NatToDecimal(f.lineno)))
  {
    TraceOpening(s, f);
    TraceOpeningName(s, f);
    GroupAtFrameLocation(s, f);
    var name := FunctionLabel(f);
    var q := 5 + |name|;
    var found := Some(Location(f.filename, NatToDecimal(f.lineno)));
    LazyGroupSkipsWord(s, 5, q);
    assert s[5] == name[0];
    OpeningFrame(s, found);
  }

  /** The trace the error-tracker parser renders, read back by the code
      search: the location is the FIRST kept frame's file and line, while
      the parser records the LAST kept frame as the affected file. */
  lemma {:induction false} CodeSearchReadsFirstKeptFrame(payload: SentryPayload, now: int, parseDate: string -> Date)
    requires payload.data.issue.Some?
    requires RelevantFrames(FramesOf(payload)) != []
    requires var f := RelevantFrames(FramesOf(payload))[0];
      NoSpaces(FunctionLabel(f)) && PathSafe(f.filename) && StripLeadingSlash(f.filename) != ""
    ensures var e := ParseWebhookEvent(payload, now, parseDate).value;
      var relevant := RelevantFrames(FramesOf(payload));
      && FileTarget(e.stackTrace) == Some(FileLocation(StripLeadingSlash(relevant[0].filename), relevant[0].lineno))
      && e.metadata.value["affectedFile"] == Some(relevant[|relevant| - 1].filename)
  {
    var e := ParseWebhookEvent(payload, now, parseDate).value;
    var relevant := RelevantFrames(FramesOf(payload));
    var f := relevant[0];
    var lines := FrameLines(relevant);
    var trace := JoinWith(lines, "\n");
    assert e.stackTrace == Some(trace);
    JoinWithStartsWithFirst(lines, "\n");
    assert FrameLine(f) <= trace;
    FirstLineLocation(trace, f);
    DecimalRoundTrip(f.lineno);
    assert trace != "" by { FrameLineLayout(f); }
    AffectedFileIsLastRelevant(payload, now, parseDate);
  }

  /** An event without a stack trace, as every chat-ops event is, never
      yields a runtime error and so never reaches the pull-request path. */
  lemma {:induction false} TracelessEventsFileIssues(owner: string, repo: string, e: ErrorEvent, remote: Remote)
    requires e.stackTrace.None?
    ensures var a := Analysis(owner, repo, e, remote);
      a.Some? ==> a.value.errorType == "code_reference" && !ShouldCreatePR(a.value)
  {
    assert FileTarget(e.stackTrace).None?;
    var a := Analysis(owner, repo, e, remote);
    if a.Some? {
      PullRequestPathIff(owner, repo, e, remote);
    }
  }
}
