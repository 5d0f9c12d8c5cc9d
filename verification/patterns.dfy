/**
  The six regular expressions with which the dashboard reads a feed item,
  each written as a hand-made scanner. `MatchAt` says whether a pattern
  matches starting exactly at a position and what its capture group holds;
  `Search` tries positions from left to right as `String.prototype.match`
  does and returns the capture of the leftmost match.
 */
module Patterns {
  import opened Common
  import opened Text

  datatype Pattern =
    | Magnitude         // /M ([\d.]+)/            on the title
    | Latitude          // /Latitude: ([\d.]+)[NS]/i
    | Longitude         // /Longitude: ([\d.]+)[EW]/i
    | Depth             // /Depth: ([\d.]+)km/
    | DistanceLocation  // /(\d+\.?\d* km [NSEW]+ of .+?)</
    | TitleLocation     // /of (.+)$/              on the title

  /** The patterns whose capture is a `[\d.]+` run handed to parseFloat. */
  predicate IsNumeric(p: Pattern) {
    p.Magnitude? || p.Latitude? || p.Longitude? || p.Depth?
  }

  /**
    `\d+\.?\d*` over a run of digits and dots: it must start with a digit and
    hold at most one dot.
   */
  predicate IsNumberToken(t: string)
    requires AllDigitsOrDots(t)
  {
    |t| > 0 && IsDigit(t[0]) && DotCount(t) <= 1
  }

  /** How many dots `t` holds. */
  function DotCount(t: string): nat
    decreases |t|
  {
    if t == [] then 0 else (if t[0] == '.' then 1 else 0) + DotCount(t[1..])
  }

  /**
    Lazy `.+?<` starting at `q`: at least one character that is not a line
    terminator, then the first `<` reachable without crossing a line
    terminator. Yields the index of that `<`.
   */
  function LazyUntilLt(s: string, q: nat): (e: Option<nat>)
    ensures e.Some? ==> LazyTail(s, q, e.value)
  {
    if q < |s| && !IsLineTerminator(s[q]) then ScanToLt(s, q + 1) else None
  }

  /**
    What `.+?<` spans from `q` when it stops at the `<` at `e`: at least one
    character, no line terminator, and no `<` after the first character.
   */
  predicate LazyTail(s: string, q: nat, e: nat) {
    && q < e < |s| && s[e] == '<'
    && (forall j :: q <= j < e ==> !IsLineTerminator(s[j]))
    && (forall j :: q < j < e ==> s[j] != '<')
  }

  function ScanToLt(s: string, k: nat): (e: Option<nat>)
    ensures e.Some? ==> k <= e.value < |s| && s[e.value] == '<'
    ensures e.Some? ==> forall j :: k <= j < e.value ==> !IsLineTerminator(s[j]) && s[j] != '<'
    decreases |s| - k
  {
    if k >= |s| then None
    else if s[k] == '<' then Some(k)
    else if IsLineTerminator(s[k]) then None
    else ScanToLt(s, k + 1)
  }

  /**
    What each regular expression matches at `i` with capture `c`, stated on
    the text itself rather than by scanning. A number followed by a letter,
    a space or "km" is necessarily the whole run of digits and dots there,
    so only `M ([\d.]+)`, which nothing follows, states that the run is
    maximal.
   */
  ghost predicate Captures(p: Pattern, s: string, i: nat, c: string) {
    match p
    case Magnitude => StartsAt(s, i, "M ") && c != [] && MaximalRunAt(s, i + 2, c)
    case Latitude => NumberBeforeLetter(s, i, "Latitude: ", 'N', 'S', c)
    case Longitude => NumberBeforeLetter(s, i, "Longitude: ", 'E', 'W', c)
    case Depth => NumberBeforeKm(s, i, c)
    case DistanceLocation => exists n, m :: DistanceParts(s, i, c, n, m)
    case TitleLocation =>
      && StartsAt(s, i, "of ") && c != [] && c == s[i + 3..]
      && forall j :: 0 <= j < |c| ==> !IsLineTerminator(c[j])
  }

  /** `<tag>([\d.]+)[<a><b>]` with the `i` flag, capturing `c`. */
  predicate NumberBeforeLetter(s: string, i: nat, tag: string, a: char, b: char, c: string) {
    && StartsAtIgnoringCase(s, i, tag)
    && c != [] && AllDigitsOrDots(c) && StartsAt(s, i + |tag|, c)
    && i + |tag| + |c| < |s| && (Upper(s[i + |tag| + |c|]) == a || Upper(s[i + |tag| + |c|]) == b)
  }

  /** `Depth: ([\d.]+)km`, capturing `c`. */
  predicate NumberBeforeKm(s: string, i: nat, c: string) {
    && StartsAt(s, i, "Depth: ")
    && c != [] && AllDigitsOrDots(c) && StartsAt(s, i + 7, c)
    && StartsAt(s, i + 7 + |c|, "km")
  }

  /**
    `(\d+\.?\d* km [NSEW]+ of .+?)<` capturing `c`, with a number of `n`
    characters and `m` compass letters: `c` stands at `i` and is followed by
    a `<`, and the part after " of " is a lazy tail ending at that `<`.
   */
  predicate DistanceParts(s: string, i: nat, c: string, n: nat, m: nat) {
    StartsAt(s, i, c) && DistanceHeadParts(s, i, n, m) && LazyTail(s, i + n + 4 + m + 4, i + |c|)
  }

  /** `\d+\.?\d* km [NSEW]+ of ` at `i`, with a number of `n` characters and `m` compass letters. */
  predicate DistanceHeadParts(s: string, i: nat, n: nat, m: nat) {
    && n > 0 && i + n <= |s| && AllDigitsOrDots(s[i..i + n]) && IsNumberToken(s[i..i + n])
    && StartsAt(s, i + n, " km ")
    && m > 0 && i + n + 4 + m <= |s| && (forall j :: i + n + 4 <= j < i + n + 4 + m ==> IsCompassLetter(s[j]))
    && StartsAt(s, i + n + 4 + m, " of ")
  }

  /** The capture of pattern `p` when it matches `s` starting exactly at `i`. */
  function MatchAt(p: Pattern, s: string, i: nat): (r: Option<string>)
    ensures r.Some? ==> i < |s|
    ensures r.Some? && IsNumeric(p) ==> |r.value| > 0 && AllDigitsOrDots(r.value)
  {
    if i >= |s| then None
    else match p
      case Magnitude => MagnitudeAt(s, i)
      case Latitude => HemisphereNumberAt(s, i, "Latitude: ", 'N', 'S')
      case Longitude => HemisphereNumberAt(s, i, "Longitude: ", 'E', 'W')
      case Depth => DepthAt(s, i)
      case DistanceLocation => DistanceLocationAt(s, i)
      case TitleLocation => TitleLocationAt(s, i)
  }

  /** A capture the scanner yields is one the regular expression matches at that position. */
  lemma MatchAtCaptures(p: Pattern, s: string, i: nat)
    ensures MatchAt(p, s, i).Some? ==> Captures(p, s, i, MatchAt(p, s, i).value)
  {
    if i < |s| {
      match p
      case Magnitude => MagnitudeSound(s, i);
      case Latitude => HemisphereNumberSound(s, i, "Latitude: ", 'N', 'S');
      case Longitude => HemisphereNumberSound(s, i, "Longitude: ", 'E', 'W');
      case Depth => DepthSound(s, i);
      case DistanceLocation => DistanceLocationSound(s, i);
      case TitleLocation => TitleLocationSound(s, i);
    }
  }

  /** Where the regular expression matches with capture `c`, the scanner yields exactly `c`. */
  lemma CapturesMatch(p: Pattern, s: string, i: nat, c: string)
    requires Captures(p, s, i, c)
    ensures MatchAt(p, s, i) == Some(c)
  {
    match p
    case Magnitude =>
      MaximalRunLength(s, i + 2, c);
    case Latitude =>
      HemisphereNumberFrom(s, i, "Latitude: ", 'N', 'S', c);
    case Longitude =>
      HemisphereNumberFrom(s, i, "Longitude: ", 'E', 'W', c);
    case Depth =>
      DepthFrom(s, i, c);
    case DistanceLocation =>
      var n, m :| DistanceParts(s, i, c, n, m);
      DistanceFrom(s, i, c, n, m);
    case TitleLocation =>
  }

  /** `M ([\d.]+)`: greedy, so the capture is the whole run after "M ". */
  function MagnitudeAt(s: string, i: nat): (r: Option<string>)
    requires i < |s|
    ensures r.Some? ==> |r.value| > 0 && AllDigitsOrDots(r.value)
  {
    if StartsAt(s, i, "M ") then
      var n := RunLength(DigitsAndDots, s, i + 2);
      if n > 0 then Some(s[i + 2..i + 2 + n]) else None
    else None
  }

  /** A magnitude capture is the whole run of digits and dots after "M ". */
  lemma MagnitudeSound(s: string, i: nat)
    requires i < |s|
    ensures MagnitudeAt(s, i).Some? ==> Captures(Magnitude, s, i, MagnitudeAt(s, i).value)
  {
  }

  /**
    `<tag>([\d.]+)[<a><b>]` with the `i` flag. Giving back characters of the
    greedy run cannot help, since a digit or dot is never a hemisphere letter,
    so the run must be maximal and be followed by one of the two letters.
   */
  function HemisphereNumberAt(s: string, i: nat, tag: string, a: char, b: char): (r: Option<string>)
    requires i < |s|
    ensures r.Some? ==> |r.value| > 0 && AllDigitsOrDots(r.value)
  {
    if StartsAtIgnoringCase(s, i, tag) then
      var st := i + |tag|;
      var n := RunLength(DigitsAndDots, s, st);
      if n > 0 && st + n < |s| && (Upper(s[st + n]) == a || Upper(s[st + n]) == b)
      then Some(s[st..st + n]) else None
    else None
  }

  /** With hemisphere letters that are not digits or dots, a tagged number before one of them is found. */
  lemma HemisphereNumberFrom(s: string, i: nat, tag: string, a: char, b: char, c: string)
    requires !IsDigitOrDot(a) && !IsDigitOrDot(b)
    requires NumberBeforeLetter(s, i, tag, a, b, c)
    ensures HemisphereNumberAt(s, i, tag, a, b) == Some(c)
  {
    MaximalRunLength(s, i + |tag|, c);
  }

  /** A hemisphere capture is a tagged number followed by one of the two letters. */
  lemma HemisphereNumberSound(s: string, i: nat, tag: string, a: char, b: char)
    requires i < |s|
    ensures HemisphereNumberAt(s, i, tag, a, b).Some? ==> NumberBeforeLetter(s, i, tag, a, b, HemisphereNumberAt(s, i, tag, a, b).value)
  {
  }

  /** `Depth: ([\d.]+)km`, case-sensitive. */
  function DepthAt(s: string, i: nat): (r: Option<string>)
    requires i < |s|
    ensures r.Some? ==> |r.value| > 0 && AllDigitsOrDots(r.value)
  {
    if StartsAt(s, i, "Depth: ") then
      var n := RunLength(DigitsAndDots, s, i + 7);
      if n > 0 && StartsAt(s, i + 7 + n, "km") then Some(s[i + 7..i + 7 + n]) else None
    else None
  }

  /** A depth capture is the number between "Depth: " and "km". */
  lemma DepthSound(s: string, i: nat)
    requires i < |s|
    ensures DepthAt(s, i).Some? ==> NumberBeforeKm(s, i, DepthAt(s, i).value)
  {
  }

  /** A `Depth: <number>km` field at `i` is found, with the number as the capture. */
  lemma DepthFrom(s: string, i: nat, c: string)
    requires NumberBeforeKm(s, i, c)
    ensures i < |s| && DepthAt(s, i) == Some(c)
  {
    var e := i + 7 + |c|;
    assert s[e] == s[e..e + 2][0] == 'k';
    MaximalRunLength(s, i + 7, c);
  }

  /**
    `(\d+\.?\d* km [NSEW]+ of .+?)<`. The number and the letters are each
    followed by a space, which neither run contains, so both runs must be
    maximal; the capture ends just before the first reachable `<`.
   */
  function DistanceLocationAt(s: string, i: nat): (r: Option<string>)
    requires i < |s|
    ensures r.Some? ==> IsDigit(s[i]) && |r.value| > 0
  {
    match DistanceHead(s, i)
    case None => None
    case Some(nm) =>
      match LazyUntilLt(s, i + nm.0 + 4 + nm.1 + 4)
      case Some(e) => Some(s[i..e])
      case None => None
  }

  /**
    The scan of `\d+\.?\d* km [NSEW]+ of ` at `i`: the lengths of the number
    and of the compass letters, each the maximal run at its place.
   */
  function DistanceHead(s: string, i: nat): (nm: Option<(nat, nat)>)
    requires i < |s|
    ensures nm.Some? ==> nm.value.0 > 0 && IsDigit(s[i])
  {
    var n := RunLength(DigitsAndDots, s, i);
    if n > 0 && IsNumberToken(s[i..i + n]) && StartsAt(s, i + n, " km ") then
      var m := RunLength(CompassLetters, s, i + n + 4);
      if m > 0 && StartsAt(s, i + n + 4 + m, " of ") then Some((n, m)) else None
    else None
  }

  /** What the head scan accepts is the head of the regular expression. */
  lemma DistanceHeadSound(s: string, i: nat)
    requires i < |s|
    ensures DistanceHead(s, i).Some? ==> DistanceHeadParts(s, i, DistanceHead(s, i).value.0, DistanceHead(s, i).value.1)
  {
  }

  /** Where the head of the regular expression stands at `i`, the head scan finds it with those lengths. */
  lemma DistanceHeadFrom(s: string, i: nat, n: nat, m: nat)
    requires DistanceHeadParts(s, i, n, m)
    ensures i < |s| && DistanceHead(s, i) == Some((n, m))
  {
    DistanceNumberRun(s, i, n, m);
    DistanceLetterRun(s, i, n, m);
  }

  /** The number of a distance head is the whole run of digits and dots at `i`, since a space follows it. */
  lemma DistanceNumberRun(s: string, i: nat, n: nat, m: nat)
    requires DistanceHeadParts(s, i, n, m)
    ensures RunLength(DigitsAndDots, s, i) == n
  {
    assert s[i + n] == s[i + n..i + n + 4][0];
    forall k | i <= k < i + n ensures IsDigitOrDot(s[k]) {
      assert s[k] == s[i..i + n][k - i];
    }
    RunLengthIs(DigitsAndDots, s, i, n);
  }

  /** The compass letters of a distance head are the whole run of such letters, since a space follows them. */
  lemma DistanceLetterRun(s: string, i: nat, n: nat, m: nat)
    requires DistanceHeadParts(s, i, n, m)
    ensures RunLength(CompassLetters, s, i + n + 4) == m
  {
    var st := i + n + 4;
    assert s[st + m] == s[st + m..st + m + 4][0];
    RunLengthIs(CompassLetters, s, st, m);
  }

  /** A distance capture consists of the parts the regular expression prescribes. */
  lemma DistanceLocationSound(s: string, i: nat)
    requires i < |s|
    ensures DistanceLocationAt(s, i).Some? ==> exists n, m :: DistanceParts(s, i, DistanceLocationAt(s, i).value, n, m)
  {
    DistanceHeadSound(s, i);
    match DistanceHead(s, i)
    case None =>
    case Some(nm) =>
      var q := i + nm.0 + 4 + nm.1 + 4;
      match LazyUntilLt(s, q)
      case None =>
      case Some(e) =>
        assert DistanceParts(s, i, s[i..e], nm.0, nm.1);
  }

  /** Where the distance pattern matches with these parts, the scanner finds exactly that capture. */
  lemma DistanceFrom(s: string, i: nat, c: string, n: nat, m: nat)
    requires DistanceParts(s, i, c, n, m)
    ensures i < |s| && DistanceLocationAt(s, i) == Some(c)
  {
    DistanceHeadFrom(s, i, n, m);
    var e := i + |c|;
    LazyFindsLt(s, i + n + 4 + m + 4, e);
    assert s[i..e] == c;
  }

  /** A lazy tail from `q` to the `<` at `e` is where the lazy scan stops. */
  lemma LazyFindsLt(s: string, q: nat, e: nat)
    requires LazyTail(s, q, e)
    ensures LazyUntilLt(s, q) == Some(e)
  {
    ScanFindsLt(s, q + 1, e);
  }

  /** Whenever a `<` is reachable from `q` after at least one character, without crossing a line terminator, the lazy scan finds one. */
  lemma LazyFindsSomeLt(s: string, q: nat, e: nat)
    requires q < e < |s| && s[e] == '<'
    requires forall j :: q <= j < e ==> !IsLineTerminator(s[j])
    ensures LazyUntilLt(s, q).Some?
  {
    ScanReachesLt(s, q + 1, e);
  }

  /** Scanning from `k` stops at some `<` when a `<` lies ahead with no line terminator before it. */
  lemma {:induction false} ScanReachesLt(s: string, k: nat, e: nat)
    requires k <= e < |s| && s[e] == '<'
    requires forall j :: k <= j < e ==> !IsLineTerminator(s[j])
    ensures ScanToLt(s, k).Some?
    decreases e - k
  {
    if k < e && s[k] != '<' {
      ScanReachesLt(s, k + 1, e);
    }
  }

  /** Scanning from `k` reaches the `<` at `e` when nothing before it stops the scan. */
  lemma {:induction false} ScanFindsLt(s: string, k: nat, e: nat)
    requires k <= e < |s| && s[e] == '<'
    requires forall j :: k <= j < e ==> !IsLineTerminator(s[j]) && s[j] != '<'
    ensures ScanToLt(s, k) == Some(e)
    decreases e - k
  {
    if k < e {
      ScanFindsLt(s, k + 1, e);
    }
  }

  /** `of (.+)$`: everything after "of " to the end, which must be non-empty and hold no line terminator. */
  function TitleLocationAt(s: string, i: nat): (r: Option<string>)
    requires i < |s|
    ensures r.Some? ==> i + 3 < |s| && r.value == s[i + 3..]
  {
    if StartsAt(s, i, "of ") && i + 3 < |s| && forall j :: i + 3 <= j < |s| ==> !IsLineTerminator(s[j])
    then Some(s[i + 3..]) else None
  }

  /** A title capture is the non-empty rest of the line after "of ". */
  lemma TitleLocationSound(s: string, i: nat)
    requires i < |s|
    ensures TitleLocationAt(s, i).Some? ==> Captures(TitleLocation, s, i, TitleLocationAt(s, i).value)
  {
  }

  /** What `p` yields at each position of `s`, from the first to the last. */
  function Attempts(p: Pattern, s: string): (a: seq<Option<string>>)
    ensures |a| == |s|
  {
    seq(|s|, j requires 0 <= j => MatchAt(p, s, j))
  }

  /** The first capture among the attempts at or after `i`. */
  function Leftmost(tries: seq<Option<string>>, i: nat): (r: Option<string>)
    ensures r.Some? ==> exists k :: i <= k < |tries| && tries[k] == r
    decreases |tries| - i
  {
    if i >= |tries| then None
    else if tries[i].Some? then tries[i]
    else Leftmost(tries, i + 1)
  }

  /** A capture picked is the one at the first attempt that yields any, at or after `i`. */
  lemma {:induction false} LeftmostIsFirst(tries: seq<Option<string>>, i: nat)
    ensures Leftmost(tries, i).Some? ==>
      exists k :: i <= k < |tries| && tries[k] == Leftmost(tries, i) && forall j :: i <= j < k ==> tries[j].None?
    decreases |tries| - i
  {
    if i < |tries| && tries[i].None? {
      LeftmostIsFirst(tries, i + 1);
      if Leftmost(tries, i + 1).Some? {
        var k :| i + 1 <= k < |tries| && tries[k] == Leftmost(tries, i + 1) && forall j :: i + 1 <= j < k ==> tries[j].None?;
        assert forall j :: i <= j < k ==> tries[j].None?;
      }
    }
  }

  /** Attempts that yield nothing between `i` and `k` are passed over. */
  lemma {:induction false} LeftmostSkips(tries: seq<Option<string>>, i: nat, k: nat)
    requires i <= k <= |tries|
    requires forall j :: i <= j < k ==> tries[j].None?
    ensures Leftmost(tries, i) == Leftmost(tries, k)
    decreases k - i
  {
    if i < k {
      LeftmostSkips(tries, i + 1, k);
    }
  }

  /** Nothing is picked exactly when no attempt at or after `i` yields a capture. */
  lemma {:induction false} LeftmostNone(tries: seq<Option<string>>, i: nat)
    ensures Leftmost(tries, i).None? <==> forall j :: i <= j < |tries| ==> tries[j].None?
    decreases |tries| - i
  {
    if i < |tries| {
      LeftmostNone(tries, i + 1);
      assert (forall j :: i <= j < |tries| ==> tries[j].None?) <==>
        tries[i].None? && forall j :: i + 1 <= j < |tries| ==> tries[j].None?;
    }
  }

  /**
    `String.prototype.match` from `i`: the capture of the leftmost position
    at or after `i` where `p` matches. `SearchIsLeftmost`,
    `SearchNoneWithoutMatch` and `SearchNoneMeansNoMatch` state what it finds.
   */
  function Search(p: Pattern, s: string, i: nat): (r: Option<string>)
    ensures r.Some? && IsNumeric(p) ==> |r.value| > 0 && AllDigitsOrDots(r.value)
  {
    Leftmost(Attempts(p, s), i)
  }

  /** `s.match(p)`: the capture of the leftmost match in the whole string. */
  function FirstMatch(p: Pattern, s: string): (r: Option<string>)
    ensures r.Some? && IsNumeric(p) ==> |r.value| > 0 && AllDigitsOrDots(r.value)
  {
    Search(p, s, 0)
  }

  /** The search yields the capture at the first position at or after `i` where the pattern matches. */
  lemma SearchIsLeftmost(p: Pattern, s: string, i: nat)
    ensures Search(p, s, i).Some? ==>
      exists k :: i <= k < |s| && MatchAt(p, s, k) == Search(p, s, i) && forall j :: i <= j < k ==> MatchAt(p, s, j).None?
  {
    var tries := Attempts(p, s);
    LeftmostIsFirst(tries, i);
    if Search(p, s, i).Some? {
      var k :| i <= k < |tries| && tries[k] == Leftmost(tries, i) && forall j :: i <= j < k ==> tries[j].None?;
      forall j | i <= j < k ensures MatchAt(p, s, j).None? {
        assert tries[j] == MatchAt(p, s, j);
      }
      assert tries[k] == MatchAt(p, s, k);
    }
  }

  /** Where the pattern matches at no position at or after `i`, the search finds nothing. */
  lemma SearchNoneWithoutMatch(p: Pattern, s: string, i: nat)
    requires forall j :: i <= j < |s| ==> MatchAt(p, s, j).None?
    ensures Search(p, s, i).None?
  {
    LeftmostNone(Attempts(p, s), i);
  }

  /** When the search finds nothing, the pattern matches at no position at or after `i`. */
  lemma SearchNoneMeansNoMatch(p: Pattern, s: string, i: nat, j: nat)
    requires i <= j < |s|
    requires Search(p, s, i).None?
    ensures MatchAt(p, s, j).None?
  {
    var tries := Attempts(p, s);
    LeftmostNone(tries, i);
    assert tries[j].None?;
  }

  /** The search stops at the first position where the pattern matches. */
  lemma SearchFindsFirst(p: Pattern, s: string, i: nat, k: nat)
    requires i <= k
    requires MatchAt(p, s, k).Some?
    requires forall j :: i <= j < k ==> MatchAt(p, s, j).None?
    ensures Search(p, s, i) == MatchAt(p, s, k)
  {
    var tries := Attempts(p, s);
    LeftmostSkips(tries, i, k);
    assert tries[k] == MatchAt(p, s, k);
  }

  /** Where the pattern matches, the search from there yields that match. */
  lemma FoundHere(p: Pattern, s: string, k: nat)
    requires MatchAt(p, s, k).Some?
    ensures Search(p, s, k) == MatchAt(p, s, k)
  {
    assert Attempts(p, s)[k] == MatchAt(p, s, k);
  }

  /** The location pattern needs a `<` to end on: without one in the text it never matches. */
  lemma NoDistanceLocationWithoutLt(s: string)
    requires '<' !in s
    ensures FirstMatch(DistanceLocation, s).None?
  {
    forall j | 0 <= j < |s| ensures MatchAt(DistanceLocation, s, j).None? {
    }
    SearchNoneWithoutMatch(DistanceLocation, s, 0);
  }

  /** The characters with which a match of `p` can begin: the first character of its literal text. */
  predicate CanStart(p: Pattern, c: char) {
    match p
    case Magnitude => c == 'M'
    case Latitude => c == 'L' || c == 'l'
    case Longitude => c == 'L' || c == 'l'
    case Depth => c == 'D'
    case DistanceLocation => IsDigit(c)
    case TitleLocation => c == 'o'
  }

  /** Every pattern is anchored by the first character of its literal text. */
  lemma MatchNeedsFirstChar(p: Pattern, s: string, i: nat)
    ensures MatchAt(p, s, i).Some? ==> CanStart(p, s[i])
  {
    if MatchAt(p, s, i).Some? {
      match p
      case Magnitude => assert s[i..i + 2][0] == s[i];
      case Latitude => assert Upper(s[i + 0]) == Upper("Latitude: "[0]);
      case Longitude => assert Upper(s[i + 0]) == Upper("Longitude: "[0]);
      case Depth => assert s[i..i + 7][0] == s[i];
      case DistanceLocation =>
      case TitleLocation => assert s[i..i + 3][0] == s[i];
    }
  }

  /** Positions where no match can begin are passed over: searching from `i` is searching from `k`. */
  lemma SkipNoStart(p: Pattern, s: string, i: nat, k: nat)
    requires i <= k <= |s|
    requires forall j :: i <= j < k ==> !CanStart(p, s[j])
    ensures Search(p, s, i) == Search(p, s, k)
  {
    var tries := Attempts(p, s);
    forall j | i <= j < k ensures tries[j].None? {
      MatchNeedsFirstChar(p, s, j);
    }
    LeftmostSkips(tries, i, k);
  }

  /** A position where `p` does not match is passed over. */
  lemma SkipNoMatch(p: Pattern, s: string, i: nat)
    requires i < |s|
    requires MatchAt(p, s, i).None?
    ensures Search(p, s, i) == Search(p, s, i + 1)
  {
    assert Attempts(p, s)[i].None?;
  }
}
