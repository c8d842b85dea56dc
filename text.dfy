/**
 * The string operations the assembler applies to its source text, with the
 * meaning Python gives them: `str.splitlines()`, `str.strip()`,
 * `str.split('//')[0]` and `str.split(maxsplit=1)`.
 * Strings are sequences of Unicode code points, as in Python 3.
 *
 * The functions carry only the bounds their callers need to be well formed;
 * what each one computes is stated by the lemma that follows it, so that
 * callers pay for those facts only where they use them.
 */
module Text {

  /** Python's `str.isspace()` for a single code point. */
  predicate IsSpace(c: char) {
    var n := c as int;
    (9 <= n <= 13) || (28 <= n <= 32) || n == 0x85 || n == 0xA0 || n == 0x1680
    || (0x2000 <= n <= 0x200A) || n == 0x2028 || n == 0x2029 || n == 0x202F
    || n == 0x205F || n == 0x3000
  }

  /** `s` is made of whitespace only (or is empty). */
  predicate AllSpace(s: string) {
    forall k :: 0 <= k < |s| ==> IsSpace(s[k])
  }

  /** The code points at which `str.splitlines()` ends a line ("\r\n" counts as one break). */
  predicate IsLineBreak(c: char) {
    c == '\n' || c == '\r' || c == '\U{000B}' || c == '\U{000C}' || c == '\U{001C}'
    || c == '\U{001D}' || c == '\U{001E}' || c == '\U{0085}' || c == '\U{2028}' || c == '\U{2029}'
  }

  predicate NoLineBreak(s: string) {
    forall k :: 0 <= k < |s| ==> !IsLineBreak(s[k])
  }

  /** Index of the first line break in `s`, or `|s|` when there is none. */
  function LineEnd(s: string): (i: nat)
    ensures i <= |s|
  {
    if s == [] || IsLineBreak(s[0]) then 0 else 1 + LineEnd(s[1..])
  }

  /** `LineEnd` stops at the first line break and at nothing else. */
  lemma {:induction false} LineEndSpec(s: string)
    ensures NoLineBreak(s[..LineEnd(s)])
    ensures LineEnd(s) < |s| ==> IsLineBreak(s[LineEnd(s)])
  {
    if s != [] && !IsLineBreak(s[0]) {
      LineEndSpec(s[1..]);
      assert s[..LineEnd(s)] == [s[0]] + s[1..][..LineEnd(s[1..])];
    }
  }

  /**
   * Python's `str.splitlines()`: the text between line breaks, with the breaks
   * themselves dropped; a break at the very end does not start another line, and
   * the empty text has no lines at all.
   */
  function SplitLines(s: string): (lines: seq<string>)
    ensures lines == [] <==> s == []
    decreases |s|
  {
    if s == [] then []
    else
      var i := LineEnd(s);
      if i == |s| then [s]
      else
        [s[..i]] + SplitLines(s[NextLineStart(s, i)..])
  }

  /** Where the line after the break at `i` starts: "\r\n" counts as one break. */
  function NextLineStart(s: string, i: nat): nat
    requires i < |s|
  {
    if s[i] == '\r' && i + 1 < |s| && s[i + 1] == '\n' then i + 2 else i + 1
  }

  /** No line that `SplitLines` returns holds a line break, and text without breaks is one line. */
  lemma {:induction false} SplitLinesSpec(s: string)
    ensures forall k :: 0 <= k < |SplitLines(s)| ==> NoLineBreak(SplitLines(s)[k])
    ensures NoLineBreak(s) && s != [] ==> SplitLines(s) == [s]
    decreases |s|
  {
    if s != [] {
      LineEndSpec(s);
      var i := LineEnd(s);
      if i < |s| {
        SplitLinesSpec(s[NextLineStart(s, i)..]);
      } else {
        assert s[..i] == s;
      }
    }
  }

  /** The lines joined back together with "\n" between them. */
  function JoinLines(lines: seq<string>): string {
    if lines == [] then []
    else if |lines| == 1 then lines[0]
    else lines[0] + "\n" + JoinLines(lines[1..])
  }

  /** The only line break `s` contains is "\n". */
  predicate OnlyNewlineBreaks(s: string) {
    forall k :: 0 <= k < |s| && IsLineBreak(s[k]) ==> s[k] == '\n'
  }

  /**
   * For text whose only line break is "\n" and which does not end with one,
   * splitting into lines and joining them again gives back the text: nothing but
   * the breaks is lost.
   */
  lemma {:induction false} SplitLinesJoin(s: string)
    requires OnlyNewlineBreaks(s)
    requires s != [] ==> s[|s| - 1] != '\n'
    ensures JoinLines(SplitLines(s)) == s
    decreases |s|
  {
    if s != [] && LineEnd(s) < |s| {
      var i := LineEnd(s);
      FirstBreakIsNewline(s);
      var rest := s[i + 1..];
      NewlineBreaksSuffix(s, i + 1);
      SplitLinesJoin(rest);
      SplitLinesAtNewline(s, i);
      JoinCons(s[..i], SplitLines(rest));
      RejoinAt(s, i);
    }
  }

  /**
   * For text whose only line break is "\n" and which ends with one, as text
   * taken from an editor widget does, splitting into lines and joining them
   * with "\n" gives back the text without its final "\n": `splitlines` starts
   * no line after a break at the very end.
   */
  lemma {:induction false} SplitLinesJoinTrailing(s: string)
    requires OnlyNewlineBreaks(s) && s != [] && s[|s| - 1] == '\n'
    ensures JoinLines(SplitLines(s)) + "\n" == s
    decreases |s|
  {
    LineEndSpec(s);
    var i := LineEnd(s);
    assert !NoLineBreak(s[..|s|]) by {
      assert s[..|s|][|s| - 1] == s[|s| - 1];
    }
    assert s[i] == '\n';
    if i == |s| - 1 {
      assert NextLineStart(s, i) == |s|;
      assert SplitLines(s) == [s[..i]] + SplitLines([]);
      RejoinAt(s, i);
    } else {
      var rest := s[i + 1..];
      NewlineBreaksSuffix(s, i + 1);
      assert rest[|rest| - 1] == s[|s| - 1];
      SplitLinesJoinTrailing(rest);
      SplitLinesAtNewline(s, i);
      JoinCons(s[..i], SplitLines(rest));
      RejoinAt(s, i);
    }
  }

  /** Text whose first break is "\r\n" at `i` splits there, and both code points of the break are dropped. */
  lemma SplitLinesAtCrLf(s: string, i: nat)
    requires i == LineEnd(s) && i + 1 < |s| && s[i] == '\r' && s[i + 1] == '\n'
    ensures SplitLines(s) == [s[..i]] + SplitLines(s[i + 2..])
  {
    assert NextLineStart(s, i) == i + 2;
  }

  /** In text whose only break is "\n" and which does not end with one, the first break is a "\n" with text after it. */
  lemma FirstBreakIsNewline(s: string)
    requires OnlyNewlineBreaks(s) && s != [] && s[|s| - 1] != '\n' && LineEnd(s) < |s|
    ensures LineEnd(s) < |s| - 1 && s[LineEnd(s)] == '\n'
  {
    LineEndSpec(s);
  }

  /** Cutting out the code point at `i` and putting a "\n" back gives the text again, when it was one. */
  lemma RejoinAt(s: string, i: nat)
    requires i < |s| && s[i] == '\n'
    ensures s[..i] + "\n" + s[i + 1..] == s
  {
    assert s == s[..i] + [s[i]] + s[i + 1..];
  }

  /** A suffix of text whose only break is "\n" has no other break either. */
  lemma NewlineBreaksSuffix(s: string, j: nat)
    requires OnlyNewlineBreaks(s) && j <= |s|
    ensures OnlyNewlineBreaks(s[j..])
  {
    forall k | 0 <= k < |s| - j && IsLineBreak(s[j..][k]) ensures s[j..][k] == '\n' {
      assert s[j..][k] == s[j + k];
    }
  }

  /** Text whose first break is a "\n" at `i`, not its last code point, splits there. */
  lemma SplitLinesAtNewline(s: string, i: nat)
    requires i == LineEnd(s) && i < |s| - 1 && s[i] == '\n'
    ensures SplitLines(s) == [s[..i]] + SplitLines(s[i + 1..])
  {
    assert NextLineStart(s, i) == i + 1;
  }

  /** Joining a line in front of other lines puts a "\n" between them. */
  lemma JoinCons(head: string, tail: seq<string>)
    requires tail != []
    ensures JoinLines([head] + tail) == head + "\n" + JoinLines(tail)
  {
    assert ([head] + tail)[1..] == tail;
  }

  /** Number of whitespace code points at the start of `s`. */
  function LeadingSpaces(s: string): (n: nat)
    ensures n <= |s|
  {
    if s != [] && IsSpace(s[0]) then 1 + LeadingSpaces(s[1..]) else 0
  }

  /** `LeadingSpaces` counts exactly the whitespace before the first other code point. */
  lemma {:induction false} LeadingSpacesSpec(s: string)
    ensures AllSpace(s[..LeadingSpaces(s)])
    ensures LeadingSpaces(s) < |s| ==> !IsSpace(s[LeadingSpaces(s)])
  {
    if s != [] && IsSpace(s[0]) {
      LeadingSpacesSpec(s[1..]);
      assert s[..LeadingSpaces(s)] == [s[0]] + s[1..][..LeadingSpaces(s[1..])];
    }
  }

  /** Length of `s` without its trailing whitespace. */
  function ContentEnd(s: string): (n: nat)
    ensures n <= |s|
  {
    if s != [] && IsSpace(s[|s| - 1]) then ContentEnd(s[..|s| - 1]) else |s|
  }

  /** `ContentEnd` drops exactly the whitespace after the last other code point. */
  lemma {:induction false} ContentEndSpec(s: string)
    ensures AllSpace(s[ContentEnd(s)..])
    ensures ContentEnd(s) > 0 ==> !IsSpace(s[ContentEnd(s) - 1])
  {
    if s != [] && IsSpace(s[|s| - 1]) {
      var s' := s[..|s| - 1];
      ContentEndSpec(s');
      assert s[ContentEnd(s)..] == s'[ContentEnd(s')..] + [s[|s| - 1]];
    }
  }

  /** Python's `str.lstrip()`. */
  function TrimStart(s: string): string {
    s[LeadingSpaces(s)..]
  }

  /** Python's `str.strip()`. */
  function Strip(s: string): string {
    var t := TrimStart(s);
    t[..ContentEnd(t)]
  }

  /**
   * `Strip` keeps the slice of `s` between its leading and trailing whitespace:
   * everything before and after the result is whitespace, the result starts and
   * ends with a non-blank code point, and it is empty exactly when `s` is all
   * whitespace. These facts determine the result.
   */
  lemma StripSpec(s: string)
    ensures var r := Strip(s);
      && LeadingSpaces(s) + |r| <= |s|
      && r == s[LeadingSpaces(s)..LeadingSpaces(s) + |r|]
      && AllSpace(s[..LeadingSpaces(s)])
      && AllSpace(s[LeadingSpaces(s) + |r|..])
      && (r == [] <==> AllSpace(s))
      && (r != [] ==> !IsSpace(r[0]) && !IsSpace(r[|r| - 1]))
  {
    var i := LeadingSpaces(s);
    var t := s[i..];
    assert Strip(s) == t[..ContentEnd(t)];
    assert t[..ContentEnd(t)] == s[i..i + ContentEnd(t)];
    LeadingSpacesSpec(s);
    StripTrailing(s);
    StripBlank(s);
    StripEnds(s);
  }

  /** What follows the result of `Strip` is whitespace. */
  lemma StripTrailing(s: string)
    ensures LeadingSpaces(s) + |Strip(s)| <= |s|
    ensures AllSpace(s[LeadingSpaces(s) + |Strip(s)|..])
  {
    var i := LeadingSpaces(s);
    var t := s[i..];
    ContentEndSpec(t);
    assert s[i + |Strip(s)|..] == t[ContentEnd(t)..];
  }

  /** `Strip` empties exactly the all-whitespace text. */
  lemma StripBlank(s: string)
    ensures Strip(s) == [] <==> AllSpace(s)
  {
    var i := LeadingSpaces(s);
    var t := s[i..];
    LeadingSpacesSpec(s);
    ContentEndSpec(t);
    if Strip(s) == [] {
      assert AllSpace(t);
      assert s == s[..i] + t;
      forall k | 0 <= k < |s| ensures IsSpace(s[k]) {
        assert s[k] == (s[..i] + t)[k];
      }
    } else {
      assert !IsSpace(s[i]);
    }
  }

  /** What `Strip` keeps begins and ends with a non-blank code point. */
  lemma StripEnds(s: string)
    ensures var r := Strip(s); r != [] ==> !IsSpace(r[0]) && !IsSpace(r[|r| - 1])
  {
    var i := LeadingSpaces(s);
    var t := s[i..];
    LeadingSpacesSpec(s);
    ContentEndSpec(t);
    var r := Strip(s);
    if r != [] {
      assert r[0] == s[i];
      assert r[|r| - 1] == t[ContentEnd(t) - 1];
    }
  }

  /** A comment marker `//` starts at index `i` of `s`. */
  predicate CommentAt(s: string, i: int) {
    0 <= i && i + 1 < |s| && s[i] == '/' && s[i + 1] == '/'
  }

  /** Python's `s.split('//')[0]`. */
  function BeforeComment(s: string): (r: string)
    ensures |r| <= |s|
  {
    if |s| < 2 then s
    else if s[0] == '/' && s[1] == '/' then []
    else [s[0]] + BeforeComment(s[1..])
  }

  /**
   * `BeforeComment` is the longest prefix of `s` in which no comment marker
   * starts: it stops exactly at the first `//`, or runs to the end.
   */
  lemma {:induction false} BeforeCommentSpec(s: string)
    ensures var r := BeforeComment(s);
      && r == s[..|r|]
      && (forall i :: 0 <= i < |r| ==> !CommentAt(s, i))
      && (|r| < |s| ==> CommentAt(s, |r|))
  {
    if |s| >= 2 && !(s[0] == '/' && s[1] == '/') {
      BeforeCommentSpec(s[1..]);
      assert forall i :: 1 <= i < |s| ==> (CommentAt(s, i) <==> CommentAt(s[1..], i - 1));
    }
  }

  /** Index of the first whitespace code point in `s`, or `|s|`. */
  function WordEnd(s: string): (w: nat)
    ensures w <= |s|
  {
    if s == [] || IsSpace(s[0]) then 0 else 1 + WordEnd(s[1..])
  }

  /** `WordEnd` stops at the first whitespace and at nothing else. */
  lemma {:induction false} WordEndSpec(s: string)
    ensures forall k :: 0 <= k < WordEnd(s) ==> !IsSpace(s[k])
    ensures WordEnd(s) < |s| ==> IsSpace(s[WordEnd(s)])
  {
    if s != [] && !IsSpace(s[0]) {
      WordEndSpec(s[1..]);
      assert forall k :: 1 <= k < WordEnd(s) ==> s[k] == s[1..][k - 1];
    }
  }

  /**
   * Python's `s.split(maxsplit=1)`: the first whitespace-separated word and,
   * when anything but whitespace follows it, that remainder with its leading
   * whitespace removed (trailing whitespace is kept).
   */
  function SplitOnce(s: string): (parts: seq<string>)
    ensures |parts| <= 2
  {
    var u := TrimStart(s);
    if u == [] then []
    else
      var w := WordEnd(u);
      var rest := TrimStart(u[w..]);
      if rest == [] then [u[..w]] else [u[..w], rest]
  }

  /**
   * `SplitOnce` cut at positions of `s` itself: `p` after the leading
   * whitespace, `p + w` after the first word, `p + w + q` after the gap. The
   * first part is `s[p..p + w]`, the second `s[p + w + q..]`. `LeadingFrom`,
   * `WordFrom` and `SpacesFrom` say what lies between these positions: only
   * whitespace before `p`, a word of non-blank code points up to whitespace or
   * the end, and whitespace up to a non-blank code point or the end. Together
   * they determine `split(maxsplit=1)`.
   */
  lemma SplitOnceAt(s: string, p: nat, w: nat, q: nat)
    requires p == LeadingSpaces(s) && p + w <= |s| && w == WordEnd(s[p..])
    requires q == LeadingSpaces(s[p + w..])
    ensures p + w + q <= |s|
    ensures |SplitOnce(s)| == if p == |s| then 0 else if p + w + q == |s| then 1 else 2
    ensures p < |s| ==> SplitOnce(s)[0] == s[p..p + w]
    ensures p + w + q < |s| ==> SplitOnce(s)[1] == s[p + w + q..]
  {
    var u := TrimStart(s);
    assert u == s[p..];
    if p < |s| {
      var tail := u[w..];
      assert tail == s[p + w..];
      var rest := TrimStart(tail);
      assert rest == s[p + w + q..];
      assert u[..w] == s[p..p + w];
    }
  }

  /** The whitespace run of length `q` counted by `LeadingSpaces` from position `j` of `s`, in positions of `s`. */
  lemma SpacesFrom(s: string, j: nat, q: nat)
    requires j <= |s| && q == LeadingSpaces(s[j..])
    ensures j + q <= |s|
    ensures forall k :: j <= k < j + q ==> IsSpace(s[k])
    ensures j + q < |s| ==> !IsSpace(s[j + q])
  {
    var t := s[j..];
    LeadingSpacesSpec(t);
    forall k | j <= k < j + q
      ensures IsSpace(s[k])
    {
      assert s[k] == t[..q][k - j];
    }
    if j + q < |s| {
      assert s[j + q] == t[q];
    }
  }

  /** The word of length `w` measured by `WordEnd` from position `j` of `s`, in positions of `s`. */
  lemma WordFrom(s: string, j: nat, w: nat)
    requires j <= |s| && w == WordEnd(s[j..])
    ensures j + w <= |s|
    ensures forall k :: j <= k < j + w ==> !IsSpace(s[k])
    ensures j + w < |s| ==> IsSpace(s[j + w])
    ensures j < |s| && !IsSpace(s[j]) ==> w > 0
  {
    var t := s[j..];
    WordEndSpec(t);
    forall k | j <= k < j + w
      ensures !IsSpace(s[k])
    {
      assert s[k] == t[k - j];
    }
    if j + w < |s| {
      assert s[j + w] == t[w];
    }
    if j < |s| {
      assert s[j] == t[0];
    }
  }

  /** The leading whitespace of `s`, of length `p`, in positions of `s`. */
  lemma LeadingFrom(s: string, p: nat)
    requires p == LeadingSpaces(s)
    ensures p <= |s|
    ensures forall k :: 0 <= k < p ==> IsSpace(s[k])
    ensures p < |s| ==> !IsSpace(s[p])
  {
    LeadingSpacesSpec(s);
    forall k | 0 <= k < p
      ensures IsSpace(s[k])
    {
      assert s[k] == s[..p][k];
    }
  }

  /** A word ends before the whitespace at `j`: `i` and `k` are non-blank on either side of it. */
  predicate WordGap(s: string, i: int, j: int, k: int) {
    0 <= i < j < k < |s| && !IsSpace(s[i]) && IsSpace(s[j]) && !IsSpace(s[k])
  }

  /** `s` holds at least two whitespace-separated words. */
  ghost predicate HasTwoWords(s: string) {
    exists i, j, k :: WordGap(s, i, j, k)
  }

  /** `split(maxsplit=1)` yields no part at all exactly for blank text. */
  lemma SplitOnceBlank(s: string)
    ensures SplitOnce(s) == [] <==> AllSpace(s)
  {
    var p := LeadingSpaces(s);
    LeadingSpacesSpec(s);
    if p == |s| {
      assert s == s[..p];
    } else {
      assert !AllSpace(s);
    }
  }

  /** A second part of `split(maxsplit=1)` shows two words, and it is not blank once stripped. */
  lemma SplitOnceSecondPart(s: string)
    requires |SplitOnce(s)| > 1
    ensures HasTwoWords(s)
    ensures Strip(SplitOnce(s)[1]) != []
  {
    var p := LeadingSpaces(s);
    var u := s[p..];
    LeadingSpacesSpec(s);
    var w := WordEnd(u);
    WordEndSpec(u);
    var tail := u[w..];
    var q := LeadingSpaces(tail);
    LeadingSpacesSpec(tail);
    var rest := tail[q..];
    assert s[p] == u[0] && s[p + w] == u[w] && s[p + w + q] == rest[0];
    assert WordGap(s, p, p + w, p + w + q);
    StripSpec(rest);
    assert !AllSpace(rest);
  }

  /** Leading whitespace ends at or before any non-blank code point. */
  lemma {:induction false} LeadingSpacesBefore(s: string, x: int)
    requires 0 <= x < |s| && !IsSpace(s[x])
    ensures LeadingSpaces(s) <= x
  {
    if x > 0 && IsSpace(s[0]) {
      LeadingSpacesBefore(s[1..], x - 1);
    }
  }

  /** A word ends at or before any whitespace code point. */
  lemma {:induction false} WordEndBefore(s: string, x: int)
    requires 0 <= x < |s| && IsSpace(s[x])
    ensures WordEnd(s) <= x
  {
    if x > 0 && !IsSpace(s[0]) {
      WordEndBefore(s[1..], x - 1);
    }
  }

  /** Two words give `split(maxsplit=1)` a second part. */
  lemma SplitOnceTwoWords(s: string)
    requires HasTwoWords(s)
    ensures |SplitOnce(s)| > 1
  {
    var i, j, k :| WordGap(s, i, j, k);
    LeadingSpacesBefore(s, i);
    var p := LeadingSpaces(s);
    var u := s[p..];
    assert u[j - p] == s[j];
    WordEndBefore(u, j - p);
    var w := WordEnd(u);
    var tail := u[w..];
    assert tail[k - p - w] == s[k];
    LeadingSpacesBefore(tail, k - p - w);
  }

  /**
   * `split(maxsplit=1)` yields nothing for blank text, a second part exactly
   * when the text has two words, and that part is never blank once stripped.
   */
  lemma SplitOnceSpec(s: string)
    ensures SplitOnce(s) == [] <==> AllSpace(s)
    ensures |SplitOnce(s)| > 1 <==> HasTwoWords(s)
    ensures |SplitOnce(s)| > 1 ==> Strip(SplitOnce(s)[1]) != []
  {
    SplitOnceBlank(s);
    if |SplitOnce(s)| > 1 {
      SplitOnceSecondPart(s);
    }
    if HasTwoWords(s) {
      SplitOnceTwoWords(s);
    }
  }
}
