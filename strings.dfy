/** The JavaScript string operations the service relies on: character
    classes of its regular expressions, `toLowerCase`, `includes`,
    `substring`, `split` and `join` on one separator, and the decimal
    rendering and parsing of line numbers. */
module Strings {

  /** JavaScript's `\s`: the ASCII white space, the line terminators and the
      Unicode space separators. */
  predicate IsSpace(c: char) {
    c == ' ' || c == '\t' || c == '\n' || c == '\U{000B}' || c == '\U{000C}' || c == '\r'
    || c == '\U{00A0}' || c == '\U{1680}' || ('\U{2000}' <= c <= '\U{200A}')
    || c == '\U{2028}' || c == '\U{2029}' || c == '\U{202F}' || c == '\U{205F}'
    || c == '\U{3000}' || c == '\U{FEFF}'
  }

  /** The characters JavaScript's `.` does not match. */
  predicate IsLineTerminator(c: char) {
    c == '\n' || c == '\r' || c == '\U{2028}' || c == '\U{2029}'
  }

  /** JavaScript's `\d`. */
  predicate IsDigit(c: char) {
    '0' <= c <= '9'
  }

  /** JavaScript's `\w`, which is `[A-Za-z0-9_]` also under the `i` flag. */
  predicate IsWordChar(c: char) {
    ('a' <= c <= 'z') || ('A' <= c <= 'Z') || IsDigit(c) || c == '_'
  }

  function LowerChar(c: char): char {
    if 'A' <= c <= 'Z' then (c as int + 32) as char else c
  }

  /** `toLowerCase`, restricted to the letters A to Z. */
  function Lower(s: string): (r: string)
    ensures |r| == |s|
    ensures forall i :: 0 <= i < |s| ==> r[i] == LowerChar(s[i])
  {
    if s == [] then [] else [LowerChar(s[0])] + Lower(s[1..])
  }

  /** `t` occurs in `s` starting at index `i`. */
  predicate OccursAt(s: string, t: string, i: int) {
    0 <= i && i + |t| <= |s| && s[i..i + |t|] == t
  }

  /** `s.includes(t)`, scanning the start positions from left to right. */
  predicate Includes(s: string, t: string)
    decreases |s|
  {
    t <= s || (s != [] && Includes(s[1..], t))
  }

  /** `Includes` holds exactly when `t` occurs somewhere in `s`. */
  lemma {:induction false} IncludesOccurs(s: string, t: string)
    ensures Includes(s, t) <==> exists i :: OccursAt(s, t, i)
  {
    if t <= s {
      assert OccursAt(s, t, 0);
    } else if s != [] {
      IncludesOccurs(s[1..], t);
      if i :| OccursAt(s, t, i) {
        assert i != 0;
        assert s[1..][i - 1..i - 1 + |t|] == s[i..i + |t|];
        assert OccursAt(s[1..], t, i - 1);
      }
      if i :| OccursAt(s[1..], t, i) {
        assert s[i + 1..i + 1 + |t|] == s[1..][i..i + |t|];
        assert OccursAt(s, t, i + 1);
      }
    }
  }

  /** Lower-casing keeps every occurrence, lower-cased. */
  lemma LowerKeepsOccurrence(s: string, t: string, i: int)
    requires OccursAt(s, t, i)
    ensures OccursAt(Lower(s), Lower(t), i)
  {
    assert Lower(s)[i..i + |t|] == Lower(t);
  }

  /** `s.substring(0, n)`. */
  function Truncate(s: string, n: nat): (r: string)
    ensures |r| <= n && r <= s
    ensures |s| <= n ==> r == s
    ensures |s| > n ==> |r| == n
  {
    if |s| <= n then s else s[..n]
  }

  /** `s.split(sep)` for a one-character separator: the pieces between the
      separators, so always at least one piece. */
  function SplitOn(s: string, sep: char): (r: seq<string>)
    ensures |r| >= 1
    ensures forall k :: 0 <= k < |r| ==> sep !in r[k]
    ensures JoinWith(r, [sep]) == s
  {
    if s == [] then [""]
    else
      var rest := SplitOn(s[1..], sep);
      if s[0] == sep then
        assert ([""] + rest)[1..] == rest;
        [""] + rest
      else
        JoinWithExtendFirst([s[0]], rest, [sep]);
        [[s[0]] + rest[0]] + rest[1..]
  }

  /** `parts.join(sep)`. */
  function JoinWith(parts: seq<string>, sep: string): string {
    if |parts| == 0 then ""
    else if |parts| == 1 then parts[0]
    else parts[0] + sep + JoinWith(parts[1..], sep)
  }

  /** Lengthening the first part at its front lengthens the join the same way. */
  lemma JoinWithExtendFirst(a: string, parts: seq<string>, sep: string)
    requires |parts| >= 1
    ensures JoinWith([a + parts[0]] + parts[1..], sep) == a + JoinWith(parts, sep)
  {
    var q := [a + parts[0]] + parts[1..];
    assert q[1..] == parts[1..];
  }

  /** Joining one more part appends the separator and that part. */
  lemma {:induction false} JoinWithSnoc(parts: seq<string>, p: string, sep: string)
    requires |parts| >= 1
    ensures JoinWith(parts + [p], sep) == JoinWith(parts, sep) + sep + p
  {
    if |parts| > 1 {
      assert (parts + [p])[1..] == parts[1..] + [p];
      JoinWithSnoc(parts[1..], p, sep);
    }
  }

  /** A join starts with its first part. */
  lemma {:induction false} JoinWithStartsWithFirst(parts: seq<string>, sep: string)
    requires |parts| >= 1
    ensures parts[0] <= JoinWith(parts, sep)
  {
  }

  /** `s.split('\n')[0]`: the text before the first line feed. */
  function FirstLine(s: string): (r: string)
    ensures '\n' !in r
  {
    SplitOn(s, '\n')[0]
  }

  /** Splitting text that holds no separator yields that text alone. */
  lemma {:induction false} SplitOnWithout(s: string, sep: char)
    requires sep !in s
    ensures SplitOn(s, sep) == [s]
  {
    if s != [] {
      SplitOnWithout(s[1..], sep);
      assert [s[0]] + s[1..] == s;
    }
  }

  /** A separator-free prefix joins the first piece of what follows it. */
  lemma {:induction false} SplitOnPrefix(x: string, y: string, sep: char)
    requires sep !in x
    ensures SplitOn(x + y, sep) == [x + SplitOn(y, sep)[0]] + SplitOn(y, sep)[1..]
  {
    if x != [] {
      var r := SplitOn(y, sep);
      assert (x + y)[0] == x[0] != sep;
      assert (x + y)[1..] == x[1..] + y;
      SplitOnPrefix(x[1..], y, sep);
      var rest := SplitOn(x[1..] + y, sep);
      assert rest[0] == x[1..] + r[0] && rest[1..] == r[1..];
      assert [x[0]] + (x[1..] + r[0]) == x + r[0];
    } else {
      var r := SplitOn(y, sep);
      assert x + y == y && x + r[0] == r[0];
      assert [r[0]] + r[1..] == r;
    }
  }

  /** Splitting at the first separator. */
  lemma SplitOnAtSeparator(x: string, y: string, sep: char)
    requires sep !in x
    ensures SplitOn(x + [sep] + y, sep) == [x] + SplitOn(y, sep)
  {
    SplitOnPrefix(x, [sep] + y, sep);
    assert ([sep] + y)[0] == sep && ([sep] + y)[1..] == y;
    var r := SplitOn([sep] + y, sep);
    assert r == [""] + SplitOn(y, sep);
    assert x + r[0] == x;
    assert x + [sep] + y == x + ([sep] + y);
  }

  /** Joining lines that hold no line feed and splitting the result again
      gives the lines back. */
  lemma {:induction false} SplitJoinRoundTrip(lines: seq<string>)
    requires |lines| >= 1
    requires forall k :: 0 <= k < |lines| ==> '\n' !in lines[k]
    ensures SplitOn(JoinWith(lines, "\n"), '\n') == lines
  {
    if |lines| == 1 {
      SplitOnWithout(lines[0], '\n');
    } else {
      SplitJoinRoundTrip(lines[1..]);
      SplitOnAtSeparator(lines[0], JoinWith(lines[1..], "\n"), '\n');
      assert [lines[0]] + lines[1..] == lines;
    }
  }

  /** The first line is a prefix of the text; it is the whole text, or a line
      feed follows it. */
  lemma {:induction false} FirstLinePrefix(s: string)
    ensures FirstLine(s) <= s
    ensures FirstLine(s) == s || (|FirstLine(s)| < |s| && s[|FirstLine(s)|] == '\n')
  {
    if s != [] {
      FirstLinePrefix(s[1..]);
    }
  }

  function DigitChar(d: nat): (c: char)
    requires d < 10
    ensures IsDigit(c)
  {
    (48 + d) as char
  }

  function DigitValue(c: char): nat
    requires IsDigit(c)
  {
    c as int - 48
  }

  predicate AllDigits(s: string) {
    forall i :: 0 <= i < |s| ==> IsDigit(s[i])
  }

  /** A JavaScript number's decimal rendering, for non-negative integers. */
  function NatToDecimal(n: nat): (r: string)
    ensures |r| >= 1 && AllDigits(r)
  {
    if n < 10 then [DigitChar(n)] else NatToDecimal(n / 10) + [DigitChar(n % 10)]
  }

  /** `parseInt(digits, 10)` on a run of decimal digits. */
  function DecimalValue(digits: string): nat
    requires AllDigits(digits)
  {
    if digits == [] then 0
    else DecimalValue(digits[..|digits| - 1]) * 10 + DigitValue(digits[|digits| - 1])
  }

  /** Parsing a rendered number gives the number back. */
  lemma {:induction false} DecimalRoundTrip(n: nat)
    ensures DecimalValue(NatToDecimal(n)) == n
  {
    var r := NatToDecimal(n);
    if n >= 10 {
      DecimalRoundTrip(n / 10);
      assert r[..|r| - 1] == NatToDecimal(n / 10);
    }
  }
}
