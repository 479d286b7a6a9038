/** Hand-written scanners for the regular expressions of
    src/services/github.ts: the stack-trace location pattern of
    `searchCodeForError` and the five search-term patterns of
    `extractSearchTerms`, each tried at every start index from the left as
    JavaScript's `String.prototype.match` does. */
module Patterns {
  import opened Wrappers
  import opened Strings

  predicate IsNonSpace(c: char) {
    !IsSpace(c)
  }

  /** `[^:()]` */
  predicate IsPathChar(c: char) {
    c != ':' && c != '(' && c != ')'
  }

  /** The end of the longest run of characters satisfying `p` from `i`. */
  function RunEnd(s: string, i: nat, p: char -> bool): (e: nat)
    requires i <= |s|
    ensures i <= e <= |s|
    ensures forall k :: i <= k < e ==> p(s[k])
    ensures e == |s| || !p(s[e])
    decreases |s| - i
  {
    if i == |s| || !p(s[i]) then i else RunEnd(s, i + 1, p)
  }

  // ---------------------------------------------------------------------
  // The stack-trace pattern  (?:at|in)\s+(?:.*?\s+)?\(?([^:()]+):(\d+)
  //
  // JavaScript explores the alternatives of this pattern in a fixed order:
  // each `\s+` first takes the longest run and then gives characters back,
  // the optional group is tried present before absent, its `.*?` takes as
  // few characters as it can, and the optional `(` is tried present first.
  // The functions below follow that order, so the first location they find
  // is the one JavaScript captures. The tail `([^:()]+):(\d+)` needs no
  // search: a shorter run of `[^:()]` would have to be followed by ':',
  // which the run itself excludes, and the digit run ends the pattern.
  // ---------------------------------------------------------------------

  /** The two captures: the file path and the line number's digits. */
  datatype Location = Location(path: string, digits: string)

  /** `([^:()]+):(\d+)` at index `p`. */
  function LocationAt(s: string, p: nat): (r: Option<Location>)
    requires p <= |s|
    ensures r.Some? ==> |r.value.path| > 0 && |r.value.digits| > 0 && AllDigits(r.value.digits)
    ensures r.Some? ==> forall k :: 0 <= k < |r.value.path| ==> IsPathChar(r.value.path[k])
  {
    var e := RunEnd(s, p, IsPathChar);
    if p < e && e + 1 < |s| && s[e] == ':' && IsDigit(s[e + 1]) then
      Some(Location(s[p..e], s[e + 1..RunEnd(s, e + 1, IsDigit)]))
    else None
  }

  /** `\(?` followed by the tail, trying the parenthesis first. */
  function AfterParen(s: string, p: nat): (r: Option<Location>)
    requires p <= |s|
    ensures r.Some? ==> |r.value.path| > 0 && |r.value.digits| > 0 && AllDigits(r.value.digits)
    ensures r.Some? ==> forall k :: 0 <= k < |r.value.path| ==> IsPathChar(r.value.path[k])
  {
    if p < |s| && s[p] == '(' then
      var withParen := LocationAt(s, p + 1);
      if withParen.Some? then withParen else LocationAt(s, p)
    else LocationAt(s, p)
  }

  /** The group's `\s+`, which started at `from`, ending at `p` and then at
      each shorter length. */
  function GroupSpaces(s: string, from: nat, p: nat): (r: Option<Location>)
    requires from <= p <= |s|
    ensures r.Some? ==> |r.value.path| > 0 && |r.value.digits| > 0 && AllDigits(r.value.digits)
    ensures r.Some? ==> forall k :: 0 <= k < |r.value.path| ==> IsPathChar(r.value.path[k])
    decreases p
  {
    if p <= from then None
    else
      var r := AfterParen(s, p);
      if r.Some? then r else GroupSpaces(s, from, p - 1)
  }

  /** The group `.*?\s+` once its lazy `.*?` has reached index `p`: try the
      spaces here, else let `.*?` take one more character on the same line. */
  function LazyGroup(s: string, p: nat): (r: Option<Location>)
    requires p <= |s|
    ensures r.Some? ==> |r.value.path| > 0 && |r.value.digits| > 0 && AllDigits(r.value.digits)
    ensures r.Some? ==> forall k :: 0 <= k < |r.value.path| ==> IsPathChar(r.value.path[k])
    decreases |s| - p
  {
    var r := GroupSpaces(s, p, RunEnd(s, p, IsSpace));
    if r.Some? then r
    else if p < |s| && !IsLineTerminator(s[p]) then LazyGroup(s, p + 1)
    else None
  }

  /** The first `\s+`, which started at `from`, ending at `p` and then at
      each shorter length; after it the group is tried before its absence. */
  function LeadingSpaces(s: string, from: nat, p: nat): (r: Option<Location>)
    requires from <= p <= |s|
    ensures r.Some? ==> |r.value.path| > 0 && |r.value.digits| > 0 && AllDigits(r.value.digits)
    ensures r.Some? ==> forall k :: 0 <= k < |r.value.path| ==> IsPathChar(r.value.path[k])
    decreases p
  {
    if p <= from then None
    else
      var withGroup := LazyGroup(s, p);
      if withGroup.Some? then withGroup
      else
        var withoutGroup := AfterParen(s, p);
        if withoutGroup.Some? then withoutGroup else LeadingSpaces(s, from, p - 1)
  }

  /** The whole pattern at start index `i`. */
  function FrameAt(s: string, i: nat): (r: Option<Location>)
    requires i <= |s|
    ensures r.Some? ==> |r.value.path| > 0 && |r.value.digits| > 0 && AllDigits(r.value.digits)
    ensures r.Some? ==> forall k :: 0 <= k < |r.value.path| ==> IsPathChar(r.value.path[k])
  {
    if OccursAt(s, "at", i) || OccursAt(s, "in", i) then
      LeadingSpaces(s, i + 2, RunEnd(s, i + 2, IsSpace))
    else None
  }

  /** The leftmost match at or after index `i`. */
  function FindFrame(s: string, i: nat): (r: Option<Location>)
    requires i <= |s|
    ensures r.Some? ==> |r.value.path| > 0 && |r.value.digits| > 0 && AllDigits(r.value.digits)
    ensures r.Some? ==> forall k :: 0 <= k < |r.value.path| ==> IsPathChar(r.value.path[k])
    ensures r.Some? ==> exists j :: i <= j <= |s| && r == FrameAt(s, j)
    decreases |s| - i
  {
    var r := FrameAt(s, i);
    if r.Some? || i == |s| then r else FindFrame(s, i + 1)
  }

  /** One step of `FindFrame`: the match here, or else the scan from the
      next index, and nothing past the end. */
  lemma FindFrameStep(s: string, k: nat)
    requires k <= |s|
    ensures FindFrame(s, k) == if FrameAt(s, k).Some? then FrameAt(s, k)
                               else if k < |s| then FindFrame(s, k + 1) else None
  {
  }

  /** `FindFrame` and `FrameAt` as functions of the start index, nothing
      past the end. */
  function FindFrameFrom(s: string): nat -> Option<Location> {
    (k: nat) => if k <= |s| then FindFrame(s, k) else None
  }

  function FrameFrom(s: string): nat -> Option<Location> {
    (k: nat) => if k <= |s| then FrameAt(s, k) else None
  }

  /** `FindFrame` is a leftmost scan over `FrameAt`. */
  lemma FindFrameScans(s: string, i: nat, j: nat)
    requires i <= j <= |s|
    ensures forall k: nat {:trigger FrameFrom(s)(k)} :: i <= k <= j ==>
      FindFrameFrom(s)(k) == (if FrameFrom(s)(k).Some? then FrameFrom(s)(k) else FindFrameFrom(s)(k + 1))
  {
    forall k: nat | i <= k <= j {
      FindFrameStep(s, k);
    }
  }

  /** `FindFrame` returns the match at the first start index that has one. */
  lemma FindFrameIsLeftmost(s: string, i: nat, j: nat)
    requires i <= j <= |s|
    requires FrameAt(s, j).Some?
    requires forall k :: i <= k < j ==> FrameAt(s, k).None?
    ensures FindFrame(s, i) == FrameAt(s, j)
  {
    FindFrameScans(s, i, j);
    ScanFindsFirst(FindFrameFrom(s), FrameFrom(s), i, j);
  }

  /** `FindFrame` finds nothing only when the pattern matches at no index. */
  lemma FindFrameFailsOnlyWithoutMatch(s: string, i: nat, j: nat)
    requires i <= j <= |s|
    requires FindFrame(s, i).None?
    ensures FrameAt(s, j).None?
  {
    FindFrameScans(s, i, j);
    ScanFindsNothing(FindFrameFrom(s), FrameFrom(s), i, j);
  }

  /** `.replace(/^\//, '')`: drops one leading slash. */
  function StripLeadingSlash(path: string): (r: string)
    ensures |path| > 0 && path[0] == '/' ==> "/" + r == path
    ensures |path| == 0 || path[0] != '/' ==> r == path
  {
    if |path| > 0 && path[0] == '/' then path[1..] else path
  }

  /** The file and line a stack trace points at. */
  datatype FileLocation = FileLocation(path: string, line: nat)

  /** The stack-trace extraction of `searchCodeForError`: the first match's
      path without its leading slash, and its digits parsed as a number. */
  function ExtractFileLocation(stackTrace: string): (r: Option<FileLocation>)
    ensures r.Some? <==> FindFrame(stackTrace, 0).Some?
    ensures r.Some? <==> exists j :: 0 <= j <= |stackTrace| && FrameAt(stackTrace, j).Some?
    ensures r.Some? ==> forall k :: 0 <= k < |r.value.path| ==> IsPathChar(r.value.path[k])
    ensures r.Some? ==> exists loc :: FindFrame(stackTrace, 0) == Some(loc)
                          && r.value.path == StripLeadingSlash(loc.path)
                          && r.value.line == DecimalValue(loc.digits)
  {
    match FindFrame(stackTrace, 0)
    case None =>
      assert forall j :: 0 <= j <= |stackTrace| ==> FrameAt(stackTrace, j).None? by {
        forall j | 0 <= j <= |stackTrace| {
          FindFrameFailsOnlyWithoutMatch(stackTrace, 0, j);
        }
      }
      None
    case Some(loc) => Some(FileLocation(StripLeadingSlash(loc.path), DecimalValue(loc.digits)))
  }

  // ---------------------------------------------------------------------
  // The search-term patterns. In each, every repetition is followed by an
  // element that cannot begin with a character the repetition accepts, so
  // taking the longest run is the only way the rest can match and no search
  // over shorter runs is needed; `(\w+Error):` is the exception and is
  // handled by itself.
  // ---------------------------------------------------------------------

  /** A pattern element: a literal, compared without regard to letter case
      and written in lower case, or `\s+`. */
  datatype Token = Lit(text: string) | Spaces

  /** Where a sequence of elements matched from index `i` ends. */
  function TokensEnd(s: string, i: nat, tokens: seq<Token>): (r: Option<nat>)
    requires i <= |s|
    ensures r.Some? ==> i <= r.value <= |s|
    decreases tokens
  {
    if tokens == [] then Some(i)
    else match tokens[0]
      case Lit(t) =>
        if i + |t| <= |s| && Lower(s[i..i + |t|]) == t then TokensEnd(s, i + |t|, tokens[1..]) else None
      case Spaces =>
        var e := RunEnd(s, i, IsSpace);
        if e > i then TokensEnd(s, e, tokens[1..]) else None
  }

  /** `before (\w+) after` at index `i`, giving the captured word. */
  function CaptureBetween(s: string, i: nat, before: seq<Token>, after: seq<Token>): (r: Option<string>)
    requires i <= |s|
    ensures r.Some? ==> |r.value| > 0 && forall k :: 0 <= k < |r.value| ==> IsWordChar(r.value[k])
  {
    match TokensEnd(s, i, before)
    case None => None
    case Some(k) =>
      var m := RunEnd(s, k, IsWordChar);
      if m > k && TokensEnd(s, m, after).Some? then Some(s[k..m]) else None
  }

  /** `(\w+Error):` at index `i`, which is case-sensitive: the word run from
      `i` must end in "Error", have at least one character before it, and be
      followed by a colon. */
  function ErrorNameAt(s: string, i: nat): (r: Option<string>)
    requires i <= |s|
    ensures r.Some? ==> |r.value| > 5 && forall k :: 0 <= k < |r.value| ==> IsWordChar(r.value[k])
  {
    var e := RunEnd(s, i, IsWordChar);
    if e - i >= 6 && s[e - 5..e] == "Error" && e < |s| && s[e] == ':' then Some(s[i..e]) else None
  }

  /** The five patterns of `extractSearchTerms`, in the order they are tried. */
  datatype Pattern =
    | FunctionName     // /function\s+(\w+)/i
    | CalledAt         // /at\s+(\w+)/i
    | ErrorName        // /(\w+Error):/
    | UnreadProperty   // /Cannot\s+read\s+property\s+'(\w+)'/i
    | NotDefined       // /(\w+)\s+is\s+not\s+defined/i

  const SearchPatterns: seq<Pattern> := [FunctionName, CalledAt, ErrorName, UnreadProperty, NotDefined]

  /** A pattern's capture when it matches at start index `i`. */
  function MatchAt(p: Pattern, s: string, i: nat): (r: Option<string>)
    requires i <= |s|
    ensures r.Some? ==> |r.value| > 0 && forall k :: 0 <= k < |r.value| ==> IsWordChar(r.value[k])
  {
    match p
    case FunctionName => CaptureBetween(s, i, [Lit("function"), Spaces], [])
    case CalledAt => CaptureBetween(s, i, [Lit("at"), Spaces], [])
    case ErrorName => ErrorNameAt(s, i)
    case UnreadProperty =>
      CaptureBetween(s, i, [Lit("cannot"), Spaces, Lit("read"), Spaces, Lit("property"), Spaces, Lit("'")], [Lit("'")])
    case NotDefined =>
      CaptureBetween(s, i, [], [Spaces, Lit("is"), Spaces, Lit("not"), Spaces, Lit("defined")])
  }

  /** `s.match(pattern)?.[1]` from index `i`: the capture at the leftmost
      start index where the pattern matches. */
  function Search(p: Pattern, s: string, i: nat): (r: Option<string>)
    requires i <= |s|
    ensures r.Some? ==> |r.value| > 0 && forall k :: 0 <= k < |r.value| ==> IsWordChar(r.value[k])
    decreases |s| - i
  {
    var r := MatchAt(p, s, i);
    if r.Some? || i == |s| then r else Search(p, s, i + 1)
  }

  /** One step of `Search`: the match here, or else the search from the next
      index, and nothing past the end. */
  lemma SearchStep(p: Pattern, s: string, k: nat)
    requires k <= |s|
    ensures Search(p, s, k) == if MatchAt(p, s, k).Some? then MatchAt(p, s, k)
                               else if k < |s| then Search(p, s, k + 1) else None
  {
  }

  /** `Search` and `MatchAt` as functions of the start index, nothing past
      the end. */
  function SearchFrom(p: Pattern, s: string): nat -> Option<string> {
    (k: nat) => if k <= |s| then Search(p, s, k) else None
  }

  function MatchFrom(p: Pattern, s: string): nat -> Option<string> {
    (k: nat) => if k <= |s| then MatchAt(p, s, k) else None
  }

  /** `Search` is a leftmost scan over `MatchAt`: at each index up to the
      end it takes the match there, or else the search from the next one. */
  lemma SearchScans(p: Pattern, s: string, i: nat, j: nat)
    requires i <= j <= |s|
    ensures forall k: nat {:trigger MatchFrom(p, s)(k)} :: i <= k <= j ==>
      SearchFrom(p, s)(k) == (if MatchFrom(p, s)(k).Some? then MatchFrom(p, s)(k) else SearchFrom(p, s)(k + 1))
  {
    forall k: nat | i <= k <= j {
      SearchStep(p, s, k);
    }
  }

  /** `Search` returns the capture at the leftmost start index that matches. */
  lemma SearchIsLeftmost(p: Pattern, s: string, i: nat, j: nat)
    requires i <= j <= |s|
    requires MatchAt(p, s, j).Some?
    requires forall k :: i <= k < j ==> MatchAt(p, s, k).None?
    ensures Search(p, s, i) == MatchAt(p, s, j)
  {
    SearchScans(p, s, i, j);
    ScanFindsFirst(SearchFrom(p, s), MatchFrom(p, s), i, j);
  }

  /** A capture that `Search` returns is the match at some start index from
      `i` on. */
  lemma SearchFindsMatch(p: Pattern, s: string, i: nat)
    requires i <= |s|
    ensures Search(p, s, i).Some? ==> exists j :: i <= j <= |s| && Search(p, s, i) == MatchAt(p, s, j)
  {
    SearchScans(p, s, i, |s|);
    var j := ScanFoundAt(SearchFrom(p, s), MatchFrom(p, s), i, |s|);
  }

  /** `Search` finds nothing only when the pattern matches at no index. */
  lemma SearchFailsOnlyWithoutMatch(p: Pattern, s: string, i: nat, j: nat)
    requires i <= j <= |s|
    requires Search(p, s, i).None?
    ensures MatchAt(p, s, j).None?
  {
    SearchScans(p, s, i, j);
    ScanFindsNothing(SearchFrom(p, s), MatchFrom(p, s), i, j);
  }

  /** The loop over the patterns: the capture of the first one that matches. */
  function FirstPatternMatch(patterns: seq<Pattern>, s: string): (r: Option<string>)
    ensures r.Some? ==> |r.value| > 0 && forall k :: 0 <= k < |r.value| ==> IsWordChar(r.value[k])
  {
    if patterns == [] then None
    else
      var r := Search(patterns[0], s, 0);
      if r.Some? then r else FirstPatternMatch(patterns[1..], s)
  }

  /** The first pattern that matches decides; later ones are not consulted. */
  lemma {:induction false} FirstPatternWins(patterns: seq<Pattern>, s: string, k: nat)
    requires k < |patterns|
    requires Search(patterns[k], s, 0).Some?
    requires forall j :: 0 <= j < k ==> Search(patterns[j], s, 0).None?
    ensures FirstPatternMatch(patterns, s) == Search(patterns[k], s, 0)
  {
    if k > 0 {
      FirstPatternWins(patterns[1..], s, k - 1);
    }
  }

  /** No pattern matches only when none of them matches anywhere. */
  lemma {:induction false} NoPatternMatches(patterns: seq<Pattern>, s: string)
    ensures FirstPatternMatch(patterns, s).None? <==>
      forall j :: 0 <= j < |patterns| ==> Search(patterns[j], s, 0).None?
  {
    if patterns != [] {
      NoPatternMatches(patterns[1..], s);
      assert forall j :: 1 <= j < |patterns| ==> patterns[j] == patterns[1..][j - 1];
    }
  }

  /** The pieces of `s.split(/\s+/)` that are not empty: the maximal runs of
      non-space characters from index `i`, in order. */
  function WordsFrom(s: string, i: nat): (r: seq<string>)
    requires i <= |s|
    ensures forall k :: 0 <= k < |r| ==> |r[k]| > 0 && forall c :: c in r[k] ==> !IsSpace(c)
    decreases |s| - i
  {
    if i == |s| then []
    else if IsSpace(s[i]) then WordsFrom(s, i + 1)
    else
      var e := RunEnd(s, i, IsNonSpace);
      [s[i..e]] + WordsFrom(s, e)
  }

  /** `a` begins a word of `s` read from `i`: a non-space character at `i`
      or right after a space. */
  predicate WordStart(s: string, i: nat, a: nat) {
    i <= a < |s| && !IsSpace(s[a]) && (a == i || IsSpace(s[a - 1]))
  }

  /** The word starts of `s` read from `i` that lie at or after `b`, in
      increasing order: a filter over the indices, independent of how
      `WordsFrom` walks the text. */
  ghost function WordStarts(s: string, i: nat, b: nat): (r: seq<nat>)
    requires b <= |s|
    ensures forall k :: 0 <= k < |r| ==> b <= r[k] && WordStart(s, i, r[k])
    ensures forall k, l :: 0 <= k < l < |r| ==> r[k] < r[l]
    ensures forall a :: b <= a && WordStart(s, i, a) ==> a in r
    decreases |s| - b
  {
    if b == |s| then []
    else if WordStart(s, i, b) then [b] + WordStarts(s, i, b + 1)
    else WordStarts(s, i, b + 1)
  }

  /** Past both reading points, where the text was read from makes no
      difference to which indices start a word. */
  lemma {:induction false} WordStartsShift(s: string, i: nat, j: nat, b: nat)
    requires i < b && j < b && b <= |s|
    ensures WordStarts(s, i, b) == WordStarts(s, j, b)
    decreases |s| - b
  {
    if b < |s| {
      WordStartsShift(s, i, j, b + 1);
    }
  }

  /** Inside a run of non-space characters no word starts. */
  lemma {:induction false} WordStartsSkipRun(s: string, i: nat, b: nat, e: nat)
    requires i < b <= e <= |s|
    requires forall k :: i <= k < e ==> !IsSpace(s[k])
    ensures WordStarts(s, i, b) == WordStarts(s, i, e)
    decreases e - b
  {
    if b < e {
      assert !WordStart(s, i, b);
      WordStartsSkipRun(s, i, b + 1, e);
    }
  }

  /** Past a space, the word starts from `i` are those from `i + 1`. */
  lemma WordStartsAfterSpace(s: string, i: nat)
    requires i < |s| && IsSpace(s[i])
    ensures WordStarts(s, i, i) == WordStarts(s, i + 1, i + 1)
  {
    if i + 1 < |s| {
      assert WordStart(s, i, i + 1) == WordStart(s, i + 1, i + 1);
      WordStartsShift(s, i, i + 1, i + 2);
    }
  }

  /** A word starting at `i` is followed by the word starts from the end of
      its run. */
  lemma WordStartsAfterRun(s: string, i: nat)
    requires i < |s| && !IsSpace(s[i])
    ensures WordStarts(s, i, i) == [i] + WordStarts(s, RunEnd(s, i, IsNonSpace), RunEnd(s, i, IsNonSpace))
  {
    var e := RunEnd(s, i, IsNonSpace);
    WordStartsSkipRun(s, i, i + 1, e);
    if e < |s| {
      assert !WordStart(s, i, e) && !WordStart(s, e, e);
      WordStartsShift(s, i, e, e + 1);
    }
  }

  /** `w` holds, in order, the runs of non-space characters that begin at
      the indices `st`. */
  predicate RunsAt(s: string, w: seq<string>, st: seq<nat>) {
    && |w| == |st|
    && forall k :: 0 <= k < |w| ==> st[k] < |s| && w[k] == s[st[k]..RunEnd(s, st[k], IsNonSpace)]
  }

  lemma RunsAtCons(s: string, w: seq<string>, st: seq<nat>, a: nat)
    requires a < |s| && RunsAt(s, w, st)
    ensures RunsAt(s, [s[a..RunEnd(s, a, IsNonSpace)]] + w, [a] + st)
  {
    var w', st' := [s[a..RunEnd(s, a, IsNonSpace)]] + w, [a] + st;
    forall k | 0 < k < |w'|
      ensures st'[k] < |s| && w'[k] == s[st'[k]..RunEnd(s, st'[k], IsNonSpace)]
    {
      assert w'[k] == w[k - 1] && st'[k] == st[k - 1];
    }
  }

  /** `WordsFrom` lists exactly the runs that begin at the word starts, in
      the order of those starts. */
  lemma {:induction false} WordsFromAtWordStarts(s: string, i: nat)
    requires i <= |s|
    ensures RunsAt(s, WordsFrom(s, i), WordStarts(s, i, i))
    decreases |s| - i
  {
    if i < |s| {
      if IsSpace(s[i]) {
        WordsFromAtWordStarts(s, i + 1);
        WordStartsAfterSpace(s, i);
      } else {
        var e := RunEnd(s, i, IsNonSpace);
        WordsFromAtWordStarts(s, e);
        WordStartsAfterRun(s, i);
        RunsAtCons(s, WordsFrom(s, e), WordStarts(s, e, e), i);
      }
    }
  }

  /** Every word listed is the whole run of non-space characters at some
      word start. */
  lemma WordsFromAreWords(s: string, i: nat, k: nat)
    requires i <= |s| && k < |WordsFrom(s, i)|
    ensures exists a: nat :: WordStart(s, i, a) && WordsFrom(s, i)[k] == s[a..RunEnd(s, a, IsNonSpace)]
  {
    WordsFromAtWordStarts(s, i);
    var a := WordStarts(s, i, i)[k];
    assert WordStart(s, i, a);
  }

  /** Every run of non-space characters that begins at a word start is
      listed. */
  lemma WordsFromComplete(s: string, i: nat, a: nat)
    requires i <= |s| && WordStart(s, i, a)
    ensures s[a..RunEnd(s, a, IsNonSpace)] in WordsFrom(s, i)
  {
    WordsFromAtWordStarts(s, i);
    var st := WordStarts(s, i, i);
    assert a in st;
    var k :| 0 <= k < |st| && st[k] == a;
    assert WordsFrom(s, i)[k] == s[a..RunEnd(s, a, IsNonSpace)];
  }

  /** `words.filter(w => w.length > 3)[0]`. */
  function FirstLongWord(words: seq<string>): (r: Option<string>)
    ensures r.Some? ==> |r.value| > 3 && r.value in words
    ensures r.Some? ==> exists j :: 0 <= j < |words| && words[j] == r.value
                         && forall k :: 0 <= k < j ==> |words[k]| <= 3
    ensures r.None? ==> forall k :: 0 <= k < |words| ==> |words[k]| <= 3
  {
    if words == [] then None
    else if |words[0]| > 3 then Some(words[0])
    else
      var r := FirstLongWord(words[1..]);
      assert r.Some? ==> exists j :: 0 <= j < |words| - 1 && words[1..][j] == r.value
                                     && forall k :: 0 <= k < j ==> |words[1..][k]| <= 3;
      r
  }

  /** `GitHubService.extractSearchTerms`: the first pattern's capture, else
      the first whitespace-separated word longer than three characters. */
  function ExtractSearchTerms(message: string): (r: Option<string>)
    ensures r.Some? ==> |r.value| > 0
  {
    var matched := FirstPatternMatch(SearchPatterns, message);
    if matched.Some? then matched else FirstLongWord(WordsFrom(message, 0))
  }

  /** The term is the capture of the first of the five patterns, in their
      fixed order, that matches somewhere in the message. */
  lemma SearchTermFromFirstMatchingPattern(message: string, k: nat)
    requires k < |SearchPatterns|
    requires Search(SearchPatterns[k], message, 0).Some?
    requires forall j :: 0 <= j < k ==> Search(SearchPatterns[j], message, 0).None?
    ensures ExtractSearchTerms(message) == Search(SearchPatterns[k], message, 0)
  {
    FirstPatternWins(SearchPatterns, message, k);
  }

  /** When no pattern matches, the term is the first word longer than three
      characters, and there is none when every word is shorter. */
  lemma SearchTermFallback(message: string)
    requires forall j :: 0 <= j < |SearchPatterns| ==> Search(SearchPatterns[j], message, 0).None?
    ensures ExtractSearchTerms(message) == FirstLongWord(WordsFrom(message, 0))
  {
    NoPatternMatches(SearchPatterns, message);
  }
}
