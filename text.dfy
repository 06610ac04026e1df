/**
 * The string operations of JavaScript that the pipeline relies on: whitespace
 * as `trim` and `\s` define it, `trim`, splitting into lines, `join`, and
 * the first paragraph `split(/\r?\n\r?\n/)[0]`.
 */
module Text {

  /** A WhiteSpace or LineTerminator character of ECMAScript, the set behind both `trim` and `\s`. */
  predicate IsSpace(c: char) {
    c == '\t' || c == '\n' || c == '\U{000B}' || c == '\U{000C}' || c == '\r' || c == ' '
    || c == '\U{00A0}' || c == '\U{1680}' || ('\U{2000}' <= c <= '\U{200A}')
    || c == '\U{2028}' || c == '\U{2029}' || c == '\U{202F}' || c == '\U{205F}'
    || c == '\U{3000}' || c == '\U{FEFF}'
  }

  /** A LineTerminator, the characters a regular expression's `.` does not match. */
  predicate IsLineTerminator(c: char) {
    c == '\n' || c == '\r' || c == '\U{2028}' || c == '\U{2029}'
  }

  /** A decimal digit as `\d` matches it. */
  predicate IsDigit(c: char) {
    '0' <= c <= '9'
  }

  /** The number of leading whitespace characters. */
  function LeadingSpaces(s: string): (n: nat)
    ensures n <= |s|
    ensures forall k :: 0 <= k < n ==> IsSpace(s[k])
    ensures n < |s| ==> !IsSpace(s[n])
  {
    if s == [] || !IsSpace(s[0]) then 0 else 1 + LeadingSpaces(s[1..])
  }

  /** The number of leading decimal digits. */
  function LeadingDigits(s: string): (n: nat)
    ensures n <= |s|
    ensures forall k :: 0 <= k < n ==> IsDigit(s[k])
    ensures n < |s| ==> !IsDigit(s[n])
  {
    if s == [] || !IsDigit(s[0]) then 0 else 1 + LeadingDigits(s[1..])
  }

  /** The number of trailing whitespace characters. */
  function TrailingSpaces(s: string): (n: nat)
    ensures n <= |s|
    ensures forall k :: |s| - n <= k < |s| ==> IsSpace(s[k])
    ensures n < |s| ==> !IsSpace(s[|s| - n - 1])
  {
    if s == [] || !IsSpace(s[|s| - 1]) then 0 else 1 + TrailingSpaces(s[..|s| - 1])
  }

  /** `s.trim()`: `s` without its leading and trailing whitespace. */
  function Trim(s: string): (r: string)
  {
    var a := LeadingSpaces(s);
    var t := s[a..];
    t[..|t| - TrailingSpaces(t)]
  }

  /** Trimmed text: empty, or starting and ending with a non-space. */
  predicate IsTrimmed(s: string) {
    s == [] || (!IsSpace(s[0]) && !IsSpace(s[|s| - 1]))
  }

  /** Trim leaves no whitespace at either end. */
  lemma TrimIsTrimmed(s: string)
    ensures IsTrimmed(Trim(s))
  {
    var a := LeadingSpaces(s);
    var t := s[a..];
    var n := TrailingSpaces(t);
    if Trim(s) != [] {
      assert Trim(s)[0] == t[0] == s[a];
      assert Trim(s)[|Trim(s)| - 1] == t[|t| - n - 1];
    }
  }

  /** Trim keeps a contiguous part of `s`, drops only whitespace around it, and leaves no whitespace at either end. */
  lemma TrimSpec(s: string)
    ensures IsTrimmed(Trim(s))
    ensures exists a, b :: 0 <= a <= b <= |s| && Trim(s) == s[a..b]
              && (forall k :: 0 <= k < a ==> IsSpace(s[k]))
              && (forall k :: b <= k < |s| ==> IsSpace(s[k]))
  {
    var a := LeadingSpaces(s);
    var t := s[a..];
    var n := TrailingSpaces(t);
    var b := |s| - n;
    assert Trim(s) == s[a..b];
    assert forall k :: b <= k < |s| ==> s[k] == t[k - a];
    if Trim(s) != [] {
      assert Trim(s)[0] == s[a];
      assert Trim(s)[|Trim(s)| - 1] == t[|t| - n - 1];
    }
  }

  /** Trimmed text is left unchanged by Trim. */
  lemma TrimOfTrimmed(s: string)
    requires IsTrimmed(s)
    ensures Trim(s) == s
  {
    assert LeadingSpaces(s) == 0;
    assert s[0..] == s;
    assert TrailingSpaces(s) == 0;
  }

  /** Trimming twice is trimming once. */
  lemma TrimIdempotent(s: string)
    ensures Trim(Trim(s)) == Trim(s)
  {
    TrimSpec(s);
    TrimOfTrimmed(Trim(s));
  }

  /** `s.split(sep)` for a one-character separator: the pieces between occurrences of `sep`. */
  function Split(s: string, sep: char): (r: seq<string>)
    ensures |r| >= 1
    ensures forall k :: 0 <= k < |r| ==> sep !in r[k]
  {
    if s == [] then [""]
    else
      var rest := Split(s[1..], sep);
      if s[0] == sep then [""] + rest
      else [[s[0]] + rest[0]] + rest[1..]
  }

  /** `parts.join(sep)`. */
  function Join(parts: seq<string>, sep: string): string
  {
    if |parts| == 0 then ""
    else if |parts| == 1 then parts[0]
    else parts[0] + sep + Join(parts[1..], sep)
  }

  /** Splitting and joining again gives back the text. */
  lemma {:induction false} JoinSplit(s: string, sep: char)
    ensures Join(Split(s, sep), [sep]) == s
  {
    if s != [] {
      var rest := Split(s[1..], sep);
      JoinSplit(s[1..], sep);
      if s[0] == sep {
        assert Split(s, sep) == [""] + rest;
      } else {
        var r := Split(s, sep);
        assert r == [[s[0]] + rest[0]] + rest[1..];
        if |rest| == 1 {
          assert r == [[s[0]] + rest[0]];
        } else {
          assert r[1..] == rest[1..];
          assert Join(rest, [sep]) == rest[0] + [sep] + Join(rest[1..], [sep]);
        }
      }
    }
  }

  /** Joining appends one more part after a separator. */
  lemma {:induction false} JoinSnoc(parts: seq<string>, p: string, sep: string)
    requires |parts| > 0
    ensures Join(parts + [p], sep) == Join(parts, sep) + sep + p
  {
    if |parts| == 1 {
      assert parts + [p] == [parts[0], p];
    } else {
      assert (parts + [p])[1..] == parts[1..] + [p];
      JoinSnoc(parts[1..], p, sep);
    }
  }

  /** Each text piece trimmed, in order, as `map(l => l.trim())`. */
  function TrimAll(ls: seq<string>): (r: seq<string>)
    ensures |r| == |ls|
    ensures forall k :: 0 <= k < |r| ==> r[k] == Trim(ls[k])
  {
    if ls == [] then [] else [Trim(ls[0])] + TrimAll(ls[1..])
  }

  /** The non-empty pieces in order, as `filter(Boolean)`. */
  function NonEmpty(ls: seq<string>): (r: seq<string>)
    ensures forall k :: 0 <= k < |r| ==> r[k] != "" && r[k] in ls
  {
    if ls == [] then []
    else if ls[0] == "" then NonEmpty(ls[1..])
    else [ls[0]] + NonEmpty(ls[1..])
  }

  /**
   * `t.split(/\r?\n/).map(l => l.trim()).filter(Boolean)`. A `\r` before a line
   * break is whitespace and trimmed away, so splitting on the line feed alone
   * gives the same lines.
   */
  function Lines(t: string): (r: seq<string>)
    ensures forall k :: 0 <= k < |r| ==> r[k] != "" && IsTrimmed(r[k]) && '\n' !in r[k]
  {
    var ls := NonEmpty(TrimAll(Split(t, '\n')));
    LinesAreTrimmed(Split(t, '\n'));
    ls
  }

  /** Trim keeps only characters of its input. */
  lemma TrimKeeps(s: string, c: char)
    requires c !in s
    ensures c !in Trim(s)
  {
    var a := LeadingSpaces(s);
    var t := s[a..];
    assert forall k :: 0 <= k < |t| ==> t[k] == s[a + k];
    var r := t[..|t| - TrailingSpaces(t)];
    assert forall k :: 0 <= k < |r| ==> r[k] == t[k];
  }

  /** Trimmed pieces that held no line feed are trimmed and hold no line feed. */
  lemma LinesAreTrimmed(pieces: seq<string>)
    requires forall i :: 0 <= i < |pieces| ==> '\n' !in pieces[i]
    ensures var ls := NonEmpty(TrimAll(pieces));
      forall k :: 0 <= k < |ls| ==> IsTrimmed(ls[k]) && '\n' !in ls[k]
  {
    var ls := NonEmpty(TrimAll(pieces));
    forall k | 0 <= k < |ls| ensures IsTrimmed(ls[k]) && '\n' !in ls[k] {
      var i :| 0 <= i < |pieces| && ls[k] == TrimAll(pieces)[i];
      TrimIsTrimmed(pieces[i]);
      TrimKeeps(pieces[i], '\n');
    }
  }

  /** A paragraph break `\r?\n\r?\n` starts at index `i` of `t`. */
  predicate BreakAt(t: string, i: nat) {
    i <= |t| &&
    var u := t[i..];
    (  (|u| >= 2 && u[0] == '\n' && u[1] == '\n')
    || (|u| >= 3 && u[0] == '\n' && u[1] == '\r' && u[2] == '\n')
    || (|u| >= 3 && u[0] == '\r' && u[1] == '\n' && u[2] == '\n')
    || (|u| >= 4 && u[0] == '\r' && u[1] == '\n' && u[2] == '\r' && u[3] == '\n'))
  }

  /** The first index at or after `i` where a paragraph break starts, or `|t|` if none does. */
  function FirstBreak(t: string, i: nat): (r: nat)
    requires i <= |t|
    ensures i <= r <= |t|
    ensures forall k :: i <= k < r ==> !BreakAt(t, k)
    ensures r < |t| ==> BreakAt(t, r)
    decreases |t| - i
  {
    if i == |t| then |t| else if BreakAt(t, i) then i else FirstBreak(t, i + 1)
  }

  /** `t.split(/\r?\n\r?\n/)[0] || ''`: the text before the leftmost paragraph break. */
  function FirstParagraph(t: string): string
  {
    t[..FirstBreak(t, 0)]
  }

  /** The first paragraph is a prefix of the text that holds no paragraph break, and it ends where the first break begins. */
  lemma FirstParagraphSpec(t: string)
    ensures var p := FirstParagraph(t);
      && p <= t
      && (forall k :: 0 <= k < |p| ==> !BreakAt(t, k))
      && (p == t || BreakAt(t, |p|))
  {
  }
}
