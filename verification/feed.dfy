/**
  `parseEarthquakeItem`: one raw feed item becomes an earthquake record, or
  nothing. Only two things reject an item: a title that is missing (reading
  it throws, and the catch turns the error into `null`) and a publication
  date that does not parse. Every other field falls back to a default.
 */
module Feed {
  import opened Common
  import opened Text
  import opened NumberParsing
  import opened Patterns

  /** A feed item as the RSS parser hands it over; an absent string field is None. */
  datatype RawItem = RawItem(
    title: Option<string>,
    link: string,
    pubDate: string,
    content: Option<string>,
    description: Option<string>)

  /** The record the dashboard keeps; `time` is the event instant in milliseconds since the epoch. */
  datatype Quake = Quake(
    title: string,
    link: string,
    time: int,
    location: string,
    latitude: JsNumber,
    longitude: JsNumber,
    depth: JsNumber,
    magnitude: JsNumber)

  const UnknownLocation := "Unknown location"

  /**
    Converts a date string to milliseconds, or None for an invalid date. The
    JavaScript `Date` constructor is not modelled; the model is parametric in it.
   */
  type DateParser = string -> Option<int>

  /** A string field that JavaScript's `||` keeps: present and non-empty. */
  predicate Truthy(field: Option<string>) {
    field.Some? && field.value != ""
  }

  /** `item.content || item.description || ''`: the content wins over the description. */
  function SourceText(item: RawItem): (r: string)
    ensures r != "" <==> Truthy(item.content) || Truthy(item.description)
    ensures Truthy(item.content) ==> r == item.content.value
    ensures r != "" && !Truthy(item.content) ==> r == item.description.value
  {
    if Truthy(item.content) then item.content.value
    else if Truthy(item.description) then item.description.value
    else ""
  }

  /**
    `parseFloat(text.match(p)?.[1] || 0)`: the number in the leftmost match,
    0 when the pattern does not occur. Never negative.
   */
  function NumberField(p: Pattern, text: string): (r: JsNumber)
    requires IsNumeric(p)
    ensures FirstMatch(p, text).None? ==> r == Finite(0.0)
    ensures r.Finite? ==> r.value >= 0.0
  {
    match FirstMatch(p, text)
    case None => Finite(0.0)
    case Some(c) => ParseFloat(c)
  }

  /**
    The place: the `<num> km <dir> of ...<` run in the text, else what follows
    the leftmost "of " in the title, else "Unknown location"; a match is trimmed.
   */
  function Location(text: string, title: string): (r: string)
    ensures FirstMatch(DistanceLocation, text).Some? ==> r == Trim(FirstMatch(DistanceLocation, text).value)
    ensures (FirstMatch(DistanceLocation, text).None? && FirstMatch(TitleLocation, title).Some?) ==>
              r == Trim(FirstMatch(TitleLocation, title).value)
    ensures FirstMatch(DistanceLocation, text).None? && FirstMatch(TitleLocation, title).None? ==> r == UnknownLocation
    ensures r == UnknownLocation || r == [] || (!IsWhitespace(r[0]) && !IsWhitespace(r[|r| - 1]))
  {
    match FirstMatch(DistanceLocation, text)
    case Some(c) => Trim(c)
    case None =>
      match FirstMatch(TitleLocation, title)
      case Some(c) => Trim(c)
      case None => UnknownLocation
  }

  /**
    `parseEarthquakeItem`. The record exists exactly when the title is present
    and `pubDate + " GMT"` parses; it then carries that instant, the title and
    the link verbatim.
   */
  function ParseItem(item: RawItem, parseDate: DateParser): (r: Option<Quake>)
    ensures r.Some? <==> item.title.Some? && parseDate(item.pubDate + " GMT").Some?
    ensures r.Some? ==> r.value.title == item.title.value && r.value.link == item.link
    ensures r.Some? ==> parseDate(item.pubDate + " GMT") == Some(r.value.time)
  {
    match item.title
    case None => None
    case Some(title) =>
      var text := SourceText(item);
      match parseDate(item.pubDate + " GMT")
      case None => None
      case Some(t) =>
        Some(Quake(
          title := title,
          link := item.link,
          time := t,
          location := Location(text, title),
          latitude := NumberField(Latitude, text),
          longitude := NumberField(Longitude, text),
          depth := NumberField(Depth, text),
          magnitude := NumberField(Magnitude, title)))
  }

  /** No extracted number is negative: the patterns admit no sign, and hemisphere letters are ignored. */
  lemma NumbersNeverNegative(item: RawItem, parseDate: DateParser)
    requires ParseItem(item, parseDate).Some?
    ensures var q := ParseItem(item, parseDate).value;
      && (q.latitude.NaN? || q.latitude.value >= 0.0)
      && (q.longitude.NaN? || q.longitude.value >= 0.0)
      && (q.depth.NaN? || q.depth.value >= 0.0)
      && (q.magnitude.NaN? || q.magnitude.value >= 0.0)
  {
  }

  /**
    A field whose pattern is absent takes its default and never rejects the
    item; the location is trimmed or is the placeholder.
   */
  lemma AbsentFieldsDefault(item: RawItem, parseDate: DateParser)
    requires item.title.Some? && parseDate(item.pubDate + " GMT").Some?
    ensures ParseItem(item, parseDate).Some?
    ensures var q := ParseItem(item, parseDate).value;
      var text := SourceText(item);
      && (FirstMatch(Latitude, text).None? ==> q.latitude == Finite(0.0))
      && (FirstMatch(Longitude, text).None? ==> q.longitude == Finite(0.0))
      && (FirstMatch(Depth, text).None? ==> q.depth == Finite(0.0))
      && (FirstMatch(Magnitude, item.title.value).None? ==> q.magnitude == Finite(0.0))
      && ((FirstMatch(DistanceLocation, text).None? && FirstMatch(TitleLocation, item.title.value).None?) ==>
            q.location == UnknownLocation)
  {
  }

  /**
    Each field is read independently: the coordinates and the depth depend
    only on the source text, the magnitude only on the title.
   */
  lemma FieldsIndependent(a: RawItem, b: RawItem, parseDate: DateParser)
    requires ParseItem(a, parseDate).Some? && ParseItem(b, parseDate).Some?
    ensures SourceText(a) == SourceText(b) ==>
      var qa, qb := ParseItem(a, parseDate).value, ParseItem(b, parseDate).value;
      qa.latitude == qb.latitude && qa.longitude == qb.longitude && qa.depth == qb.depth
    ensures a.title == b.title ==> ParseItem(a, parseDate).value.magnitude == ParseItem(b, parseDate).value.magnitude
  {
  }

  // ---------------------------------------------------------------------
  // Round trip: an item written in the feed's own layout gives back its numbers.

  /** The description text the feed writes: "Latitude: 38.5N Longitude: 23.1E Depth: 10km". */
  function FeedText(lat: Decimal, ns: char, lon: Decimal, ew: char, depth: Decimal): string
    requires lat.WellFormed() && lon.WellFormed() && depth.WellFormed()
  {
    "Latitude: " + (lat.Render() + ([ns, ' '] + ("Longitude: " + (lon.Render() + ([ew, ' '] + ("Depth: " + (depth.Render() + "km")))))))
  }

  /** The hemisphere letters the latitude and longitude patterns accept, in either case. */
  predicate IsNorthSouth(c: char) { Upper(c) == 'N' || Upper(c) == 'S' }
  predicate IsEastWest(c: char) { Upper(c) == 'E' || Upper(c) == 'W' }

  /** A stretch of text holding no character that can start `p` places no such character in `s`. */
  lemma PieceStartsNothing(p: Pattern, s: string, lo: nat, piece: string, rest: string)
    requires lo <= |s| && s[lo..] == piece + rest
    requires forall m :: 0 <= m < |piece| ==> !CanStart(p, piece[m])
    ensures forall j :: lo <= j < lo + |piece| ==> !CanStart(p, s[j])
    ensures s[lo + |piece|..] == rest
  {
    forall j | lo <= j < lo + |piece| ensures !CanStart(p, s[j]) {
      assert s[j] == s[lo..][j - lo] == piece[j - lo];
    }
    assert s[lo + |piece|..] == s[lo..][|piece|..];
  }

  /** The tags of the feed's layout start neither a longitude (after their first letter) nor a depth. */
  lemma TagsStartNothing()
    ensures forall m :: 0 <= m < |"atitude: "| ==> !CanStart(Longitude, "atitude: "[m])
    ensures forall m :: 0 <= m < |"Latitude: "| ==> !CanStart(Depth, "Latitude: "[m])
    ensures forall m :: 0 <= m < |"Longitude: "| ==> !CanStart(Depth, "Longitude: "[m])
  {
  }

  /** No character of a `<tag><number><letter> ` field can start a longitude or a depth, given a tag that cannot. */
  lemma SkipField(p: Pattern, s: string, lo: nat, tag: string, r: string, h: char, rest: string)
    requires p == Longitude || p == Depth
    requires AllDigitsOrDots(r) && !CanStart(p, h)
    requires forall m :: 0 <= m < |tag| ==> !CanStart(p, tag[m])
    requires lo <= |s| && s[lo..] == tag + (r + ([h, ' '] + rest))
    ensures forall j :: lo <= j < lo + |tag| + |r| + 2 ==> !CanStart(p, s[j])
    ensures s[lo + |tag| + |r| + 2..] == rest
  {
    var a := lo + |tag|;
    var b := a + |r|;
    var pair := [h, ' '];
    forall m | 0 <= m < |r| ensures !CanStart(p, r[m]) {
      assert IsDigitOrDot(r[m]);
    }
    forall m | 0 <= m < |pair| ensures !CanStart(p, pair[m]) {
    }
    PieceStartsNothing(p, s, lo, tag, r + (pair + rest));
    PieceStartsNothing(p, s, a, r, pair + rest);
    PieceStartsNothing(p, s, b, pair, rest);
  }

  /** A longitude cannot start at the "L" of "Latitude: ". */
  lemma LongitudeNotAtLatitudeTag(s: string, field: string)
    requires s == "Latitude: " + field
    ensures Search(Longitude, s, 0) == Search(Longitude, s, 1)
  {
    assert s[1] == 'a';
    assert !StartsAtIgnoringCase(s, 0, "Longitude: ") by {
      assert Upper(s[0 + 1]) != Upper("Longitude: "[1]);
    }
    SkipNoMatch(Longitude, s, 0);
  }

  /** What follows the "L" of "Latitude: " is "atitude: ". */
  lemma AfterLatitudeInitial(s: string, field: string)
    requires s == "Latitude: " + field
    ensures s[1..] == "atitude: " + field
  {
    assert "Latitude: " == "L" + "atitude: ";
    assert s[0..] == "L" + ("atitude: " + field);
    SuffixSplit(s, 0, "L", "atitude: " + field);
  }

  /** The longitude search passes over a leading `Latitude: <number><letter> ` field. */
  lemma LongitudeAfterLatitudeField(s: string, r1: string, ns: char, rest: string)
    requires AllDigitsOrDots(r1) && ns != 'L' && ns != 'l'
    requires s == "Latitude: " + (r1 + ([ns, ' '] + rest))
    ensures Search(Longitude, s, 0) == Search(Longitude, s, 12 + |r1|)
    ensures s[12 + |r1|..] == rest
  {
    LongitudeNotAtLatitudeTag(s, r1 + ([ns, ' '] + rest));
    AfterLatitudeInitial(s, r1 + ([ns, ' '] + rest));
    TagsStartNothing();
    SkipField(Longitude, s, 1, "atitude: ", r1, ns, rest);
    SkipNoStart(Longitude, s, 1, 12 + |r1|);
  }

  /** No character of a leading `Latitude: <number><letter> ` field can start a depth. */
  lemma LatitudeFieldStartsNoDepth(s: string, r1: string, ns: char, mid: string)
    requires AllDigitsOrDots(r1) && ns != 'D'
    requires s == "Latitude: " + (r1 + ([ns, ' '] + mid))
    ensures forall j :: 0 <= j < 12 + |r1| ==> !CanStart(Depth, s[j])
    ensures s[12 + |r1|..] == mid
  {
    TagsStartNothing();
    assert s[0..] == s;
    SkipField(Depth, s, 0, "Latitude: ", r1, ns, mid);
  }

  /** No character of a `Longitude: <number><letter> ` field at `k` can start a depth. */
  lemma LongitudeFieldStartsNoDepth(s: string, k: nat, r2: string, ew: char, rest: string)
    requires AllDigitsOrDots(r2) && ew != 'D'
    requires k <= |s| && s[k..] == "Longitude: " + (r2 + ([ew, ' '] + rest))
    ensures forall j :: k <= j < k + 13 + |r2| ==> !CanStart(Depth, s[j])
    ensures s[k + 13 + |r2|..] == rest
  {
    TagsStartNothing();
    SkipField(Depth, s, k, "Longitude: ", r2, ew, rest);
  }

  /** Two adjacent stretches where `p` cannot start are passed over together. */
  lemma SkipTwoStretches(p: Pattern, s: string, a: nat, b: nat, c: nat)
    requires a <= b <= c <= |s|
    requires forall j :: a <= j < b ==> !CanStart(p, s[j])
    requires forall j :: b <= j < c ==> !CanStart(p, s[j])
    ensures Search(p, s, a) == Search(p, s, c)
  {
    SkipNoStart(p, s, a, c);
  }

  /** A text whose suffix from `k` is `t + rest` holds `t` at `k`, followed by `rest`. */
  lemma SuffixSplit(s: string, k: nat, t: string, rest: string)
    requires k <= |s| && s[k..] == t + rest
    ensures k + |t| <= |s| && s[k..k + |t|] == t && s[k + |t|..] == rest
  {
    assert s[k..k + |t|] == s[k..][..|t|];
    assert s[k + |t|..] == s[k..][|t|..];
  }

  /** A run of digits and dots placed at `st`, followed by a character that is neither, is the maximal run there. */
  lemma NumeralRun(s: string, st: nat, r: string, rest: string)
    requires AllDigitsOrDots(r)
    requires st <= |s| && s[st..] == r + rest
    requires rest != [] && !IsDigitOrDot(rest[0])
    ensures st + |r| < |s|
    ensures RunLength(DigitsAndDots, s, st) == |r| && s[st..st + |r|] == r
    ensures s[st + |r|..] == rest
  {
    SuffixSplit(s, st, r, rest);
    forall m | st <= m < st + |r| ensures IsDigitOrDot(s[m]) {
      assert s[m] == s[st..st + |r|][m - st];
    }
    assert s[st + |r|] == s[st + |r|..][0];
    RunLengthIs(DigitsAndDots, s, st, |r|);
  }

  /** The facts a `<tag><number><letter> ` field at position `k` presents to the scanner. */
  lemma HemisphereFieldFacts(s: string, k: nat, tag: string, r: string, h: char, rest: string)
    requires AllDigitsOrDots(r) && !IsDigitOrDot(h)
    requires k < |s| && s[k..] == tag + (r + ([h, ' '] + rest))
    ensures k + |tag| + |r| < |s| && StartsAtIgnoringCase(s, k, tag)
    ensures RunLength(DigitsAndDots, s, k + |tag|) == |r|
    ensures s[k + |tag| + |r|] == h && s[k + |tag|..k + |tag| + |r|] == r
  {
    var st := k + |tag|;
    SuffixSplit(s, k, tag, r + ([h, ' '] + rest));
    forall m | 0 <= m < |tag| ensures s[k + m] == tag[m] {
      assert s[k + m] == s[k..k + |tag|][m];
    }
    NumeralRun(s, st, r, [h, ' '] + rest);
    assert s[st + |r|] == s[st + |r|..][0];
  }

  /** A `<tag><number><letter> ` field at position `k` yields the number's text. */
  lemma HemisphereFieldAt(s: string, k: nat, tag: string, d: Decimal, h: char, a: char, b: char, rest: string)
    requires d.WellFormed() && !IsDigitOrDot(h) && (Upper(h) == a || Upper(h) == b)
    requires !IsDigitOrDot(a) && !IsDigitOrDot(b)
    requires k < |s| && s[k..] == tag + (d.Render() + ([h, ' '] + rest))
    ensures HemisphereNumberAt(s, k, tag, a, b) == Some(d.Render())
  {
    var r := d.Render();
    HemisphereFieldFacts(s, k, tag, r, h, rest);
    HemisphereNumberFrom(s, k, tag, a, b, r);
  }

  /** The facts a `Depth: <number>km` field at position `k` presents to the scanner. */
  lemma DepthFieldFacts(s: string, k: nat, r: string)
    requires AllDigitsOrDots(r) && |r| > 0
    requires k < |s| && s[k..] == "Depth: " + (r + "km")
    ensures StartsAt(s, k, "Depth: ") && RunLength(DigitsAndDots, s, k + 7) == |r|
    ensures StartsAt(s, k + 7 + |r|, "km") && s[k + 7..k + 7 + |r|] == r
  {
    SuffixSplit(s, k, "Depth: ", r + "km");
    NumeralRun(s, k + 7, r, "km");
    assert s[k + 7 + |r|..k + 7 + |r| + 2] == "km";
  }

  /** A `Depth: <number>km` field at position `k` yields the number's text. */
  lemma DepthFieldAt(s: string, k: nat, d: Decimal)
    requires d.WellFormed()
    requires k < |s| && s[k..] == "Depth: " + (d.Render() + "km")
    ensures MatchAt(Depth, s, k) == Some(d.Render())
  {
    var r := d.Render();
    DepthFieldFacts(s, k, r);
    DepthFrom(s, k, r);
  }

  /** The latitude of a text in the feed's layout is the first field. */
  lemma LatitudeOfFeedText(lat: Decimal, ns: char, lon: Decimal, ew: char, depth: Decimal)
    requires lat.WellFormed() && lon.WellFormed() && depth.WellFormed() && IsNorthSouth(ns)
    ensures FirstMatch(Latitude, FeedText(lat, ns, lon, ew, depth)) == Some(lat.Render())
  {
    var s := FeedText(lat, ns, lon, ew, depth);
    var rest := "Longitude: " + (lon.Render() + ([ew, ' '] + ("Depth: " + (depth.Render() + "km"))));
    assert s[0..] == "Latitude: " + (lat.Render() + ([ns, ' '] + rest));
    HemisphereFieldAt(s, 0, "Latitude: ", lat, ns, 'N', 'S', rest);
    FoundHere(Latitude, s, 0);
  }

  /** The longitude field is the first place where "Longitude: " occurs, whatever the case. */
  lemma LongitudeOfFeedText(lat: Decimal, ns: char, lon: Decimal, ew: char, depth: Decimal)
    requires lat.WellFormed() && lon.WellFormed() && depth.WellFormed()
    requires IsNorthSouth(ns) && IsEastWest(ew)
    ensures FirstMatch(Longitude, FeedText(lat, ns, lon, ew, depth)) == Some(lon.Render())
  {
    var s := FeedText(lat, ns, lon, ew, depth);
    var r1 := lat.Render();
    var tail := "Depth: " + (depth.Render() + "km");
    var rest := "Longitude: " + (lon.Render() + ([ew, ' '] + tail));
    LongitudeAfterLatitudeField(s, r1, ns, rest);
    var k := 12 + |r1|;
    HemisphereFieldAt(s, k, "Longitude: ", lon, ew, 'E', 'W', tail);
    FoundHere(Longitude, s, k);
  }

  /** The depth field is the first place where "Depth: " occurs. */
  lemma DepthOfFeedText(lat: Decimal, ns: char, lon: Decimal, ew: char, depth: Decimal)
    requires lat.WellFormed() && lon.WellFormed() && depth.WellFormed()
    requires IsNorthSouth(ns) && IsEastWest(ew)
    ensures FirstMatch(Depth, FeedText(lat, ns, lon, ew, depth)) == Some(depth.Render())
  {
    var s := FeedText(lat, ns, lon, ew, depth);
    var r1, r2 := lat.Render(), lon.Render();
    var tail := "Depth: " + (depth.Render() + "km");
    var mid := "Longitude: " + (r2 + ([ew, ' '] + tail));
    LatitudeFieldStartsNoDepth(s, r1, ns, mid);
    LongitudeFieldStartsNoDepth(s, 12 + |r1|, r2, ew, tail);
    var k := 25 + |r1| + |r2|;
    SkipTwoStretches(Depth, s, 0, 12 + |r1|, k);
    DepthFieldAt(s, k, depth);
    FoundHere(Depth, s, k);
  }

  /** A title that starts "M <number>" yields that number's text, whatever follows a non-numeric character. */
  lemma MagnitudeOfTitle(mag: Decimal, tail: string)
    requires mag.WellFormed()
    requires tail == [] || !IsDigitOrDot(tail[0])
    ensures FirstMatch(Magnitude, "M " + mag.Render() + tail) == Some(mag.Render())
  {
    var s := "M " + mag.Render() + tail;
    var r := mag.Render();
    assert s[0..2] == "M ";
    forall m | 2 <= m < 2 + |r| ensures IsDigitOrDot(s[m]) {
      assert s[m] == r[m - 2];
    }
    RunLengthIs(DigitsAndDots, s, 2, |r|);
    assert s[2..2 + |r|] == r;
    FoundHere(Magnitude, s, 0);
  }

  /**
    Round trip: an item whose title and description are written in the
    feed's layout from known numerals gives back exactly those numbers, with
    either hemisphere letter: "38.5S" still gives +38.5.
   */
  lemma RoundTrip(
    mag: Decimal, tail: string,
    lat: Decimal, ns: char, lon: Decimal, ew: char, depth: Decimal,
    link: string, pubDate: string, parseDate: DateParser)
    requires mag.WellFormed() && lat.WellFormed() && lon.WellFormed() && depth.WellFormed()
    requires tail == [] || !IsDigitOrDot(tail[0])
    requires IsNorthSouth(ns) && IsEastWest(ew)
    requires parseDate(pubDate + " GMT").Some?
    ensures
      var item := RawItem(Some("M " + mag.Render() + tail), link, pubDate,
                          Some(FeedText(lat, ns, lon, ew, depth)), None);
      var r := ParseItem(item, parseDate);
      && r.Some?
      && r.value.magnitude == Finite(mag.Value())
      && r.value.latitude == Finite(lat.Value())
      && r.value.longitude == Finite(lon.Value())
      && r.value.depth == Finite(depth.Value())
  {
    var text := FeedText(lat, ns, lon, ew, depth);
    var item := RawItem(Some("M " + mag.Render() + tail), link, pubDate, Some(text), None);
    MagnitudeField(mag, tail);
    FeedTextNumbers(lat, ns, lon, ew, depth);
    assert SourceText(item) == text;
    ParsedNumbers(item, parseDate);
  }

  /** The numbers of a parsed item are the number fields of its title and its source text. */
  lemma ParsedNumbers(item: RawItem, parseDate: DateParser)
    requires ParseItem(item, parseDate).Some?
    ensures var q := ParseItem(item, parseDate).value;
      && q.magnitude == NumberField(Magnitude, item.title.value)
      && q.latitude == NumberField(Latitude, SourceText(item))
      && q.longitude == NumberField(Longitude, SourceText(item))
      && q.depth == NumberField(Depth, SourceText(item))
  {
  }

  /** A text in the feed's layout gives back exactly its three numbers. */
  lemma FeedTextNumbers(lat: Decimal, ns: char, lon: Decimal, ew: char, depth: Decimal)
    requires lat.WellFormed() && lon.WellFormed() && depth.WellFormed()
    requires IsNorthSouth(ns) && IsEastWest(ew)
    ensures var text := FeedText(lat, ns, lon, ew, depth);
      && NumberField(Latitude, text) == Finite(lat.Value())
      && NumberField(Longitude, text) == Finite(lon.Value())
      && NumberField(Depth, text) == Finite(depth.Value())
  {
    LatitudeOfFeedText(lat, ns, lon, ew, depth);
    ParseRender(lat);
    LongitudeOfFeedText(lat, ns, lon, ew, depth);
    ParseRender(lon);
    DepthOfFeedText(lat, ns, lon, ew, depth);
    ParseRender(depth);
  }

  // ---------------------------------------------------------------------
  // Two items written out in full.

  /** A title `<head>of <place>` in which no "of " starts inside the head is placed at `<place>`. */
  lemma TitleLocationOf(head: string, place: string)
    requires forall j :: 0 <= j < |head| ==> !StartsAt(head + "of " + place, j, "of ")
    requires forall j :: 0 <= j < |place| ==> !IsLineTerminator(place[j])
    requires place != []
    ensures FirstMatch(TitleLocation, head + "of " + place) == Some(place)
  {
    var s := head + "of " + place;
    var k := |head|;
    assert s[k..k + 3] == "of ";
    forall j | k + 3 <= j < |s| ensures !IsLineTerminator(s[j]) {
      assert s[j] == place[j - k - 3];
    }
    assert s[k + 3..] == place;
    SearchFindsFirst(TitleLocation, s, 0, k);
  }

  /** A head without the letter 'o' holds no "of ". */
  lemma NoOfWithoutO(head: string, place: string)
    requires forall j :: 0 <= j < |head| ==> head[j] != 'o'
    ensures forall j :: 0 <= j < |head| ==> !StartsAt(head + "of " + place, j, "of ")
  {
    var s := head + "of " + place;
    forall j | 0 <= j < |head| ensures !StartsAt(s, j, "of ") {
      assert s[j] == head[j];
    }
  }

  /** A title starting "M <numeral>" carries that numeral's value as its magnitude. */
  lemma MagnitudeField(mag: Decimal, tail: string)
    requires mag.WellFormed()
    requires tail == [] || !IsDigitOrDot(tail[0])
    ensures NumberField(Magnitude, "M " + mag.Render() + tail) == Finite(mag.Value())
  {
    MagnitudeOfTitle(mag, tail);
    ParseRender(mag);
  }

  /** A title "M a.b<tail>" carries the magnitude a.b when the tail does not continue the numeral. */
  lemma TitleMagnitude(title: string, a: char, b: char, tail: string)
    requires IsDigit(a) && IsDigit(b)
    requires tail == [] || !IsDigitOrDot(tail[0])
    requires title == ['M', ' ', a, '.', b] + tail
    ensures NumberField(Magnitude, title) == Finite(DigitValue(a) as real + DigitValue(b) as real / 10.0)
  {
    OneDigitEachSide(a, b);
    assert title == "M " + Decimal([a], [b]).Render() + tail;
    MagnitudeField(Decimal([a], [b]), tail);
  }

  /** The typical item's title carries the magnitude 4.5. */
  lemma TypicalMagnitude(title: string)
    requires title == "M 4.5 - 10 km NE of X"
    ensures NumberField(Magnitude, title) == Finite(4.5)
  {
    TypicalTitleShape(title);
    TitleMagnitude(title, '4', '5', " - 10 km NE of X");
  }

  /** The typical title is "M ", a one-digit numeral with one decimal, and a tail. */
  lemma TypicalTitleShape(title: string)
    requires title == "M 4.5 - 10 km NE of X"
    ensures title == ['M', ' ', '4', '.', '5'] + " - 10 km NE of X"
  {
  }

  /** The typical item's title places it at "X". */
  lemma TypicalPlace(title: string)
    requires title == "M 4.5 - 10 km NE of X"
    ensures FirstMatch(TitleLocation, title) == Some("X")
  {
    assert title == "M 4.5 - 10 km NE " + "of " + "X";
    NoOfWithoutO("M 4.5 - 10 km NE ", "X");
    TitleLocationOf("M 4.5 - 10 km NE ", "X");
  }

  /** The numerals of the typical item's description. */
  lemma TypicalNumerals()
    ensures Decimal("38", "5").Render() == "38.5"
    ensures Decimal("23", "1").Render() == "23.1"
    ensures Decimal("10", "").Render() == "10"
  {
  }

  /** The values of the typical item's numerals. */
  lemma TypicalValues()
    ensures Decimal("38", "5").WellFormed() && Decimal("38", "5").Value() == 38.5
    ensures Decimal("23", "1").WellFormed() && Decimal("23", "1").Value() == 23.1
    ensures Decimal("10", "").WellFormed() && Decimal("10", "").Value() == 10.0
  {
    TwoDigitValue('3', '8');
    OneDigitFraction('5');
    TwoDigitValue('2', '3');
    OneDigitFraction('1');
    TwoDigitValue('1', '0');
  }

  /** The description of the typical item, cut at its fields. */
  lemma TypicalTextPieces(text: string)
    requires text == "Latitude: 38.5N Longitude: 23.1E Depth: 10km"
    ensures text == "Latitude: " + ("38.5" + (['N', ' '] + ("Longitude: " + ("23.1" + (['E', ' '] + ("Depth: " + ("10" + "km")))))))
  {
  }

  /** The description of the typical item is in the feed's layout. */
  lemma TypicalTextLayout(text: string)
    requires text == "Latitude: 38.5N Longitude: 23.1E Depth: 10km"
    ensures text == FeedText(Decimal("38", "5"), 'N', Decimal("23", "1"), 'E', Decimal("10", ""))
  {
    TypicalTextPieces(text);
    TypicalNumerals();
  }

  /** The description of the typical item holds no '<', so it gives no distance location. */
  lemma TypicalTextNoDistance(text: string)
    requires text == "Latitude: 38.5N Longitude: 23.1E Depth: 10km"
    ensures FirstMatch(DistanceLocation, text).None?
  {
    NoDistanceLocationWithoutLt(text);
  }

  /** The title "M 3.0 earthquake of Crete" carries the magnitude 3.0. */
  lemma CreteMagnitude(title: string)
    requires title == "M 3.0 earthquake of Crete"
    ensures NumberField(Magnitude, title) == Finite(3.0)
  {
    CreteTitleShape(title);
    TitleMagnitude(title, '3', '0', " earthquake of Crete");
  }

  /** The title "M 3.0 earthquake of Crete" is "M ", a one-digit numeral with one decimal, and a tail. */
  lemma CreteTitleShape(title: string)
    requires title == "M 3.0 earthquake of Crete"
    ensures title == ['M', ' ', '3', '.', '0'] + " earthquake of Crete"
  {
  }

  /** The typical item's description gives the latitude 38.5, the longitude 23.1 and the depth 10. */
  lemma TypicalTextNumbers(text: string)
    requires text == "Latitude: 38.5N Longitude: 23.1E Depth: 10km"
    ensures NumberField(Latitude, text) == Finite(38.5)
    ensures NumberField(Longitude, text) == Finite(23.1)
    ensures NumberField(Depth, text) == Finite(10.0)
  {
    TypicalTextLayout(text);
    TypicalValues();
    FeedTextNumbers(Decimal("38", "5"), 'N', Decimal("23", "1"), 'E', Decimal("10", ""));
  }

  /**
    A typical item: title "M 4.5 - 10 km NE of X" and description
    "Latitude: 38.5N Longitude: 23.1E Depth: 10km". The description holds no
    '<', so the location comes from the title and is "X", not "10 km NE of X".
   */
  lemma TypicalItem(title: string, text: string, link: string, pubDate: string, parseDate: DateParser)
    requires title == "M 4.5 - 10 km NE of X"
    requires text == "Latitude: 38.5N Longitude: 23.1E Depth: 10km"
    requires parseDate(pubDate + " GMT").Some?
    ensures ParseItem(RawItem(Some(title), link, pubDate, None, Some(text)), parseDate) ==
      Some(Quake(title, link, parseDate(pubDate + " GMT").value, "X",
                 Finite(38.5), Finite(23.1), Finite(10.0), Finite(4.5)))
  {
    var item := RawItem(Some(title), link, pubDate, None, Some(text));
    assert SourceText(item) == text;
    TypicalTextNoDistance(text);
    TypicalPlace(title);
    TrimKeepsTrimmed("X");
    assert Location(text, title) == "X";
    TypicalTextNumbers(text);
    TypicalMagnitude(title);
  }

  /** An item with an empty description whose title ends "of Crete" is placed at "Crete", with every number 0 but the magnitude. */
  lemma ItemWithoutDescription(title: string, link: string, pubDate: string, parseDate: DateParser)
    requires title == "M 3.0 earthquake of Crete"
    requires parseDate(pubDate + " GMT").Some?
    ensures ParseItem(RawItem(Some(title), link, pubDate, None, Some("")), parseDate) ==
      Some(Quake(title, link, parseDate(pubDate + " GMT").value, "Crete",
                 Finite(0.0), Finite(0.0), Finite(0.0), Finite(3.0)))
  {
    var item := RawItem(Some(title), link, pubDate, None, Some(""));
    assert SourceText(item) == "";
    assert title == "M 3.0 earthquake " + "of " + "Crete";
    NoOfWithoutO("M 3.0 earthquake ", "Crete");
    TitleLocationOf("M 3.0 earthquake ", "Crete");
    TrimKeepsTrimmed("Crete");
    assert Location("", title) == "Crete";
    assert NumberField(Latitude, "") == Finite(0.0);
    assert NumberField(Longitude, "") == Finite(0.0);
    assert NumberField(Depth, "") == Finite(0.0);
    CreteMagnitude(title);
  }
}
