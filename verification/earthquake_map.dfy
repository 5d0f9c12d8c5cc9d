/**
  What the map draws for the list it is given: one coloured marker per
  record, and a view centred on the first record (or on Greece when the
  list is empty).
 */
module EarthquakeMap {
  import opened Common
  import opened Feed
  import opened Pipeline
  import opened Filters
  import opened Dashboard

  /** The marker colours, from the weakest magnitude class to the strongest. */
  datatype Color = Green | Gold | Orange | Red

  /** The rank of a colour in the order green < gold < orange < red. */
  function Severity(c: Color): (n: nat)
    ensures n <= 3
  {
    match c
    case Green => 0
    case Gold => 1
    case Orange => 2
    case Red => 3
  }

  /**
    `getMarkerColor(magnitude)`: red from 6, orange from 5, gold from 4,
    green below 4. Every comparison with NaN is false, so NaN is green.
   */
  function MarkerColor(m: JsNumber): (c: Color)
    ensures m.NaN? ==> c == Green
    ensures c == Red <==> AtLeast(m, 6.0)
    ensures c == Orange <==> AtLeast(m, 5.0) && !AtLeast(m, 6.0)
    ensures c == Gold <==> AtLeast(m, 4.0) && !AtLeast(m, 5.0)
    ensures c == Green <==> !AtLeast(m, 4.0)
  {
    if AtLeast(m, 6.0) then Red
    else if AtLeast(m, 5.0) then Orange
    else if AtLeast(m, 4.0) then Gold
    else Green
  }

  /** How many of the thresholds 4, 5 and 6 a magnitude reaches. */
  function ThresholdsReached(m: JsNumber): (n: nat)
    ensures n <= 3
  {
    (if AtLeast(m, 4.0) then 1 else 0) + (if AtLeast(m, 5.0) then 1 else 0) + (if AtLeast(m, 6.0) then 1 else 0)
  }

  /** A colour's rank is the number of thresholds its magnitude reaches. */
  lemma SeverityCountsThresholds(m: JsNumber)
    ensures Severity(MarkerColor(m)) == ThresholdsReached(m)
  {
  }

  /** A larger magnitude never gets a weaker colour, and NaN gets the weakest. */
  lemma MarkerColorMonotone(a: JsNumber, b: JsNumber)
    requires a.NaN? || (a.Finite? && b.Finite? && a.value <= b.value)
    ensures Severity(MarkerColor(a)) <= Severity(MarkerColor(b))
  {
    SeverityCountsThresholds(a);
    SeverityCountsThresholds(b);
  }

  /** The colours as the marker icons name them, for magnitudes 3.9, 4, 5.5 and 6. */
  lemma MarkerColorExamples()
    ensures MarkerColor(Finite(3.9)) == Green
    ensures MarkerColor(Finite(4.0)) == Gold
    ensures MarkerColor(Finite(5.5)) == Orange
    ensures MarkerColor(Finite(6.0)) == Red
  {
  }

  /** A point on the map: `[latitude, longitude]`. */
  datatype Position = Position(latitude: JsNumber, longitude: JsNumber)

  /** Where a record is drawn. */
  function PositionOf(q: Quake): Position {
    Position(q.latitude, q.longitude)
  }

  /** The centre of Greece, used when there is nothing to show. */
  const DefaultCenter := Position(Finite(39.0742), Finite(21.8243))

  /** The map's centre: the first record's position, or the centre of Greece for an empty list. */
  function Center(qs: seq<Quake>): (p: Position)
    ensures qs == [] ==> p == DefaultCenter
    ensures qs != [] ==> p == PositionOf(qs[0])
  {
    if |qs| > 0 then PositionOf(qs[0]) else DefaultCenter
  }

  /** One marker: where it sits and its colour. */
  datatype Marker = Marker(position: Position, color: Color)

  /** The marker of one record. */
  function MarkerOf(q: Quake): Marker {
    Marker(PositionOf(q), MarkerColor(q.magnitude))
  }

  /** `earthquakes.map(...)`: one marker per record, in the list's order. */
  function Markers(qs: seq<Quake>): (r: seq<Marker>)
    ensures |r| == |qs|
    ensures forall i :: 0 <= i < |qs| ==> r[i].position == PositionOf(qs[i]) && r[i].color == MarkerColor(qs[i].magnitude)
  {
    seq(|qs|, i requires 0 <= i < |qs| => MarkerOf(qs[i]))
  }

  /** Drawing two lists one after the other is drawing their concatenation. */
  lemma MarkersAppend(a: seq<Quake>, b: seq<Quake>)
    ensures Markers(a + b) == Markers(a) + Markers(b)
  {
  }

  /** With anything to show, the first marker sits at the centre of the map. */
  lemma FirstMarkerAtCenter(qs: seq<Quake>)
    requires qs != []
    ensures Markers(qs)[0].position == Center(qs)
  {
  }

  /**
    With a selection the filtered list shows, the map draws exactly that
    record, centred on it; without one, it draws the whole filtered list
    centred on its first (newest) record.
   */
  lemma MapOfDashboard(d: Dashboard)
    ensures d.SelectedEarthquake().Some? ==>
      && Markers(d.MapEarthquakes()) == [MarkerOf(d.SelectedEarthquake().value)]
      && Center(d.MapEarthquakes()) == PositionOf(d.SelectedEarthquake().value)
    ensures d.SelectedEarthquake().None? ==>
      && |Markers(d.MapEarthquakes())| == |d.filteredEarthquakes|
      && Center(d.MapEarthquakes()) == Center(d.filteredEarthquakes)
    ensures d.Valid() && d.SelectedEarthquake().None? && d.filteredEarthquakes != [] ==>
      forall q :: q in d.filteredEarthquakes ==> q.time <= d.filteredEarthquakes[0].time
  {
    if d.Valid() {
      FilterKeepsSorted(d.earthquakes, d.shownAt, d.shownMinutes, d.shownRange);
      var qs := d.filteredEarthquakes;
      forall q | q in qs ensures q.time <= qs[0].time {
        var i :| 0 <= i < |qs| && qs[i] == q;
      }
    }
  }
}
