/**
  Character classes and scanning primitives that the dashboard's regular
  expressions rely on, written out for JavaScript's non-Unicode regex mode.
 */
module Text {

  /** `\d`: ASCII digits only. */
  predicate IsDigit(c: char) {
    '0' <= c <= '9'
  }

  /** `[\d.]` */
  predicate IsDigitOrDot(c: char) {
    IsDigit(c) || c == '.'
  }

  /** `[NSEW]` (case-sensitive). */
  predicate IsCompassLetter(c: char) {
    c == 'N' || c == 'S' || c == 'E' || c == 'W'
  }

  /** The characters that the regex `.` refuses to match. */
  predicate IsLineTerminator(c: char) {
    c == '\n' || c == '\r' || c == '\U{2028}' || c == '\U{2029}'
  }

  /** What `String.prototype.trim` removes: JavaScript white space and line terminators. */
  predicate IsWhitespace(c: char) {
    || c == '\t' || c == '\U{000B}' || c == '\U{000C}' || c == ' '
    || c == '\U{00A0}' || c == '\U{1680}' || ('\U{2000}' <= c <= '\U{200A}')
    || c == '\U{202F}' || c == '\U{205F}' || c == '\U{3000}' || c == '\U{FEFF}'
    || IsLineTerminator(c)
  }

  /**
    The canonical form used by the `i` flag without the `u` flag, restricted
    to ASCII letters. The flag also folds non-ASCII letters among themselves
    (but never onto an ASCII letter); the patterns here hold only ASCII
    letters, so that folding never decides a match.
   */
  function Upper(c: char): char {
    if 'a' <= c <= 'z' then (c as int - 32) as char else c
  }

  predicate AllDigits(s: string) {
    forall k :: 0 <= k < |s| ==> IsDigit(s[k])
  }

  predicate AllDigitsOrDots(s: string) {
    forall k :: 0 <= k < |s| ==> IsDigitOrDot(s[k])
  }

  /** The literal `lit` occurs in `s` at position `i`. */
  predicate StartsAt(s: string, i: nat, lit: string) {
    i + |lit| <= |s| && s[i..i + |lit|] == lit
  }

  /** The literal `lit` occurs in `s` at position `i`, ASCII letters compared without case. */
  predicate StartsAtIgnoringCase(s: string, i: nat, lit: string) {
    i + |lit| <= |s| && forall k :: 0 <= k < |lit| ==> Upper(s[i + k]) == Upper(lit[k])
  }

  /** The character classes over which a greedy `+` or `*` runs. */
  datatype CharClass = Digits | DigitsAndDots | CompassLetters

  predicate InClass(cls: CharClass, c: char) {
    match cls
    case Digits => IsDigit(c)
    case DigitsAndDots => IsDigitOrDot(c)
    case CompassLetters => IsCompassLetter(c)
  }

  /** Length of the longest run of `cls` characters in `s` that starts at `i`. */
  function RunLength(cls: CharClass, s: string, i: nat): (n: nat)
    requires i <= |s|
    ensures i + n <= |s|
    ensures forall k :: i <= k < i + n ==> InClass(cls, s[k])
    ensures i + n == |s| || !InClass(cls, s[i + n])
    decreases |s| - i
  {
    if i < |s| && InClass(cls, s[i]) then 1 + RunLength(cls, s, i + 1) else 0
  }

  /** A run is determined by where it stops: any maximal run from `i` is the one `RunLength` measures. */
  lemma RunLengthIs(cls: CharClass, s: string, i: nat, n: nat)
    requires i + n <= |s|
    requires forall k :: i <= k < i + n ==> InClass(cls, s[k])
    requires i + n == |s| || !InClass(cls, s[i + n])
    ensures RunLength(cls, s, i) == n
  {
  }

  /** `c` stands at `st` and is the whole run of digits and dots there: what a greedy `[\d.]+` takes. */
  predicate MaximalRunAt(s: string, st: nat, c: string) {
    StartsAt(s, st, c) && AllDigitsOrDots(c) && (st + |c| == |s| || !IsDigitOrDot(s[st + |c|]))
  }

  /** A maximal run of digits and dots is the one `RunLength` measures. */
  lemma MaximalRunLength(s: string, st: nat, c: string)
    requires MaximalRunAt(s, st, c)
    ensures RunLength(DigitsAndDots, s, st) == |c|
  {
    forall k | st <= k < st + |c| ensures IsDigitOrDot(s[k]) {
      assert s[k] == s[st..st + |c|][k - st];
    }
    RunLengthIs(DigitsAndDots, s, st, |c|);
  }

  /** Digits placed at `st` and followed by a non-digit, or by nothing, are the maximal run of digits there. */
  lemma DigitRunAt(t: string, st: nat, a: string, rest: string)
    requires st <= |t| && t[st..] == a + rest
    requires AllDigits(a) && (rest == [] || !IsDigit(rest[0]))
    ensures RunLength(Digits, t, st) == |a| && t[st..st + |a|] == a
  {
    assert t[st..st + |a|] == t[st..][..|a|];
    forall k | st <= k < st + |a| ensures IsDigit(t[k]) {
      assert t[k] == t[st..][k - st] == a[k - st];
    }
    if rest != [] {
      assert t[st + |a|] == t[st..][|a|] == rest[0];
    }
    RunLengthIs(Digits, t, st, |a|);
  }

  /** `s` with its leading white space removed. */
  function TrimStart(s: string): (r: string)
    ensures |r| <= |s| && r == s[|s| - |r|..]
    ensures forall k :: 0 <= k < |s| - |r| ==> IsWhitespace(s[k])
    ensures r == [] || !IsWhitespace(r[0])
  {
    if s != [] && IsWhitespace(s[0]) then TrimStart(s[1..]) else s
  }

  /** `s` with its trailing white space removed. */
  function TrimEnd(s: string): (r: string)
    ensures |r| <= |s| && r == s[..|r|]
    ensures forall k :: |r| <= k < |s| ==> IsWhitespace(s[k])
    ensures r == [] || !IsWhitespace(r[|r| - 1])
  {
    if s != [] && IsWhitespace(s[|s| - 1]) then TrimEnd(s[..|s| - 1]) else s
  }

  /** `String.prototype.trim`: a slice of `s` that neither starts nor ends with white space. */
  function Trim(s: string): (r: string)
    ensures exists a, b :: 0 <= a <= b <= |s| && r == s[a..b]
    ensures r == [] || (!IsWhitespace(r[0]) && !IsWhitespace(r[|r| - 1]))
  {
    var t := TrimStart(s);
    var r := TrimEnd(t);
    assert r == s[|s| - |t|..|s| - |t| + |r|];
    assert r != [] ==> r[0] == t[0];
    r
  }

  /** Text that neither starts nor ends with white space is its own trim. */
  lemma TrimKeepsTrimmed(s: string)
    requires s == [] || (!IsWhitespace(s[0]) && !IsWhitespace(s[|s| - 1]))
    ensures Trim(s) == s
  {
  }
}
