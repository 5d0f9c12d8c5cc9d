/**
  The `App` component's state and the events that change it: a poll that
  succeeds or fails, a change of either drop-down, a click on a record, and
  the two effects React runs after a render (re-filtering when the records
  or the selections change, and dropping a selection the filtered list no
  longer shows).

  The poll handler was created once, when the dashboard mounted, so it
  always filters with the selections of that first render: the defaults.
  The re-filtering effect then brings the filtered list in line with the
  current selections. The ghost fields `shownAt`, `shownMinutes` and
  `shownRange` record the clock and the selections the filtered list was
  last computed with.
 */
module Dashboard {
  import opened Common
  import opened Feed
  import opened Pipeline
  import opened Filters

  /** `filteredEarthquakes.some(eq => eq.link === link)`. */
  predicate HasLink(qs: seq<Quake>, link: string) {
    exists i :: 0 <= i < |qs| && qs[i].link == link
  }

  /** Past a first record with another link, the rest of the list holds the link exactly when the list does. */
  lemma HasLinkPastFirst(qs: seq<Quake>, link: string)
    requires qs != [] && qs[0].link != link
    ensures HasLink(qs, link) <==> HasLink(qs[1..], link)
  {
    if HasLink(qs, link) {
      var i :| 0 <= i < |qs| && qs[i].link == link;
      assert qs[1..][i - 1] == qs[i];
    }
    if HasLink(qs[1..], link) {
      var i :| 0 <= i < |qs[1..]| && qs[1..][i].link == link;
      assert qs[i + 1] == qs[1..][i];
    }
  }

  /**
    `qs.find(eq => eq.link === id)`: a record whose link is `id`, when there
    is one (`FindByLinkIsFirst`: the first). A `null` id matches no record,
    since every link is a string.
   */
  function FindByLink(qs: seq<Quake>, id: Option<string>): (r: Option<Quake>)
    ensures r.None? <==> id.None? || !HasLink(qs, id.value)
    ensures r.Some? ==> r.value in qs && id == Some(r.value.link)
  {
    if qs == [] then None
    else if Some(qs[0].link) == id then Some(qs[0])
    else if id.None? then FindByLink(qs[1..], id)
    else
      HasLinkPastFirst(qs, id.value);
      FindByLink(qs[1..], id)
  }

  /** The record found is the first one in the list with that link. */
  lemma {:induction false} FindByLinkIsFirst(qs: seq<Quake>, id: Option<string>)
    ensures var r := FindByLink(qs, id);
      r.Some? ==> exists i :: 0 <= i < |qs| && qs[i] == r.value && (forall j :: 0 <= j < i ==> Some(qs[j].link) != id)
  {
    if qs != [] && Some(qs[0].link) != id {
      var r := FindByLink(qs, id);
      FindByLinkIsFirst(qs[1..], id);
      if r.Some? {
        var i :| 0 <= i < |qs[1..]| && qs[1..][i] == r.value && forall j :: 0 <= j < i ==> Some(qs[1..][j].link) != id;
        assert qs[i + 1] == r.value;
        forall j | 0 <= j < i + 1 ensures Some(qs[j].link) != id {
          if j > 0 {
            assert qs[j] == qs[1..][j - 1];
          }
        }
      }
    }
  }

  /**
    What the clearing effect leaves of the selection `id` over the list
    `shown`: a truthy link that no shown record carries is dropped.
   */
  function Surviving(id: Option<string>, shown: seq<Quake>): Option<string> {
    if id.Some? && id.value != "" && !HasLink(shown, id.value) then None else id
  }

  /**
    A selected link whose every record the selections reject is dropped
    once the list is re-filtered, and one that a kept record carries stays.
   */
  lemma SelectionAfterFilter(qs: seq<Quake>, now: int, minutes: int, range: MagnitudeRange, link: string)
    ensures var shown := FilterQuakes(qs, now, minutes, range);
      && (link != "" && (forall q :: q in qs && q.link == link ==> !Keep(q, now, minutes, range)) ==>
            Surviving(Some(link), shown) == None)
      && ((exists q :: q in qs && q.link == link && Keep(q, now, minutes, range)) ==>
            Surviving(Some(link), shown) == Some(link))
  {
    var shown := FilterQuakes(qs, now, minutes, range);
    if HasLink(shown, link) {
      var i :| 0 <= i < |shown| && shown[i].link == link;
      assert shown[i] in shown;
    }
    if q :| q in qs && q.link == link && Keep(q, now, minutes, range) {
      assert q in shown;
      var i :| 0 <= i < |shown| && shown[i] == q;
    }
  }

  /**
    After a poll the clearing effect can run twice: first over the list
    filtered with the defaults, then over the list re-filtered with the
    current selections. For any selections the drop-downs offer, the first
    pass drops nothing the second would keep, so the two passes leave what
    the second alone leaves.
   */
  lemma ClearingTwiceAfterPoll(eqs: seq<Quake>, now: int, i: nat, j: nat, id: Option<string>)
    requires i < |TimeFilters| && j < |MagnitudeFilters|
    ensures var current := FilterQuakes(eqs, now, TimeFilters[i].value, MagnitudeFilters[j].value);
      Surviving(Surviving(id, FilterQuakes(eqs, now, DefaultTimeFilter, DefaultMagnitudeFilter)), current) ==
        Surviving(id, current)
  {
    var defaults := FilterQuakes(eqs, now, DefaultTimeFilter, DefaultMagnitudeFilter);
    var current := FilterQuakes(eqs, now, TimeFilters[i].value, MagnitudeFilters[j].value);
    if id.Some? && HasLink(current, id.value) {
      var k :| 0 <= k < |current| && current[k].link == id.value;
      assert current[k] in current;
      DefaultsAreWidest(current[k], now, i, j);
      assert current[k] in defaults;
      var m :| 0 <= m < |defaults| && defaults[m] == current[k];
    }
  }

  /** What the "Latest Earthquake" panel shows. */
  datatype Headline = Latest(quake: Quake) | Loading | NoRecentEarthquakes

  class Dashboard {
    var earthquakes: seq<Quake>
    var filteredEarthquakes: seq<Quake>
    var loading: bool
    var timeFilter: int
    var magnitudeFilter: MagnitudeRange
    /** The link of the selected record; None is `null`. */
    var selectedEarthquakeId: Option<string>

    ghost var shownAt: int
    ghost var shownMinutes: int
    ghost var shownRange: MagnitudeRange

    /**
      The records are newest first, the filtered list is the filter applied
      to them with the clock and selections recorded in the ghost fields, and
      nothing has been loaded while the first poll is still pending.
     */
    ghost predicate Valid()
      reads this
    {
      && SortedByTimeDesc(earthquakes)
      && filteredEarthquakes == FilterQuakes(earthquakes, shownAt, shownMinutes, shownRange)
      && (loading ==> earthquakes == [] && filteredEarthquakes == [])
    }

    /** The filtered list is what the current selections give at `now`. */
    ghost predicate InSync(now: int)
      reads this
    {
      filteredEarthquakes == FilterQuakes(earthquakes, now, timeFilter, magnitudeFilter)
    }

    /**
      A selection names a record the filtered list shows. An empty link is
      falsy, so the clearing effect leaves it alone.
     */
    ghost predicate SelectionValid()
      reads this
    {
      selectedEarthquakeId.None? || selectedEarthquakeId.value == "" ||
      HasLink(filteredEarthquakes, selectedEarthquakeId.value)
    }

    /** The initial render: nothing loaded, loading, the default selections, nothing selected. */
    constructor ()
      ensures Valid() && SelectionValid()
      ensures earthquakes == [] && filteredEarthquakes == [] && loading
      ensures timeFilter == DefaultTimeFilter && magnitudeFilter == DefaultMagnitudeFilter
      ensures selectedEarthquakeId.None?
    {
      earthquakes := [];
      filteredEarthquakes := [];
      loading := true;
      timeFilter := DefaultTimeFilter;
      magnitudeFilter := DefaultMagnitudeFilter;
      selectedEarthquakeId := None;
      shownAt := 0;
      shownMinutes := DefaultTimeFilter;
      shownRange := DefaultMagnitudeFilter;
    }

    /**
      A poll whose feed arrived: store every accepted item newest first,
      filter them with the defaults the handler captured at mount, and stop
      loading. The selections and the selection are untouched.
     */
    method PollSucceeded(items: seq<RawItem>, parseDate: DateParser, now: int)
      modifies this
      ensures Valid()
      ensures earthquakes == LoadFeed(items, parseDate)
      ensures filteredEarthquakes == FilterQuakes(earthquakes, now, DefaultTimeFilter, DefaultMagnitudeFilter)
      ensures !loading
      ensures timeFilter == old(timeFilter) && magnitudeFilter == old(magnitudeFilter)
      ensures selectedEarthquakeId == old(selectedEarthquakeId)
    {
      Store(LoadFeed(items, parseDate), now);
    }

    /** The state updates of a successful poll, given the records it parsed and sorted. */
    method Store(parsed: seq<Quake>, now: int)
      requires SortedByTimeDesc(parsed)
      modifies this
      ensures Valid()
      ensures earthquakes == parsed
      ensures filteredEarthquakes == FilterQuakes(parsed, now, DefaultTimeFilter, DefaultMagnitudeFilter)
      ensures !loading
      ensures timeFilter == old(timeFilter) && magnitudeFilter == old(magnitudeFilter)
      ensures selectedEarthquakeId == old(selectedEarthquakeId)
    {
      earthquakes := parsed;
      filteredEarthquakes := FilterQuakes(parsed, now, DefaultTimeFilter, DefaultMagnitudeFilter);
      shownAt, shownMinutes, shownRange := now, DefaultTimeFilter, DefaultMagnitudeFilter;
      loading := false;
    }

    /** A poll that failed: the records stay as they were and loading stops. */
    method PollFailed()
      requires Valid()
      modifies this
      ensures Valid()
      ensures earthquakes == old(earthquakes) && filteredEarthquakes == old(filteredEarthquakes)
      ensures !loading
      ensures timeFilter == old(timeFilter) && magnitudeFilter == old(magnitudeFilter)
      ensures selectedEarthquakeId == old(selectedEarthquakeId)
    {
      loading := false;
    }

    /** A new time window: remember it and filter the records with it and the current band. */
    method ChangeTimeFilter(minutes: int, now: int)
      requires Valid()
      modifies this
      ensures Valid() && InSync(now)
      ensures timeFilter == minutes && magnitudeFilter == old(magnitudeFilter)
      ensures earthquakes == old(earthquakes) && loading == old(loading)
      ensures selectedEarthquakeId == old(selectedEarthquakeId)
    {
      timeFilter := minutes;
      filteredEarthquakes := FilterQuakes(earthquakes, now, minutes, magnitudeFilter);
      shownAt, shownMinutes, shownRange := now, minutes, magnitudeFilter;
    }

    /** A new magnitude band: remember it and filter the records with it and the current window. */
    method ChangeMagnitudeFilter(range: MagnitudeRange, now: int)
      requires Valid()
      modifies this
      ensures Valid() && InSync(now)
      ensures magnitudeFilter == range && timeFilter == old(timeFilter)
      ensures earthquakes == old(earthquakes) && loading == old(loading)
      ensures selectedEarthquakeId == old(selectedEarthquakeId)
    {
      magnitudeFilter := range;
      filteredEarthquakes := FilterQuakes(earthquakes, now, timeFilter, range);
      shownAt, shownMinutes, shownRange := now, timeFilter, range;
    }

    /**
      The effect that runs when the records or the selections change: with
      records present, filter them with the current selections. With none,
      the filtered list is already empty, so either way it ends in line with
      the selections.
     */
    method RefilterOnChange(now: int)
      requires Valid()
      modifies this
      ensures Valid() && InSync(now)
      ensures earthquakes == old(earthquakes) && loading == old(loading)
      ensures timeFilter == old(timeFilter) && magnitudeFilter == old(magnitudeFilter)
      ensures selectedEarthquakeId == old(selectedEarthquakeId)
      ensures old(earthquakes) == [] ==> filteredEarthquakes == old(filteredEarthquakes)
    {
      if |earthquakes| > 0 {
        filteredEarthquakes := FilterQuakes(earthquakes, now, timeFilter, magnitudeFilter);
        shownAt, shownMinutes, shownRange := now, timeFilter, magnitudeFilter;
      }
    }

    /** A click on a record: clicking the selected one clears the selection, any other selects its link. */
    method ClickEarthquake(eq: Quake)
      modifies this
      ensures selectedEarthquakeId == if old(selectedEarthquakeId) == Some(eq.link) then None else Some(eq.link)
      ensures earthquakes == old(earthquakes) && filteredEarthquakes == old(filteredEarthquakes)
      ensures loading == old(loading) && timeFilter == old(timeFilter) && magnitudeFilter == old(magnitudeFilter)
      ensures eq in filteredEarthquakes ==> SelectionValid()
      ensures old(Valid()) ==> Valid()
    {
      if selectedEarthquakeId == Some(eq.link) {
        selectedEarthquakeId := None;
      } else {
        selectedEarthquakeId := Some(eq.link);
        if eq in filteredEarthquakes {
          var i :| 0 <= i < |filteredEarthquakes| && filteredEarthquakes[i] == eq;
        }
      }
    }

    /**
      The effect that runs when the filtered list or the selection changes:
      a selected link that the filtered list does not show is cleared; any
      other selection stays.
     */
    method RevalidateSelection()
      modifies this
      ensures SelectionValid()
      ensures selectedEarthquakeId ==
        if old(SelectionValid()) then old(selectedEarthquakeId) else None
      ensures earthquakes == old(earthquakes) && filteredEarthquakes == old(filteredEarthquakes)
      ensures loading == old(loading) && timeFilter == old(timeFilter) && magnitudeFilter == old(magnitudeFilter)
      ensures old(Valid()) ==> Valid()
    {
      if selectedEarthquakeId.Some? && selectedEarthquakeId.value != "" &&
         !HasLink(filteredEarthquakes, selectedEarthquakeId.value) {
        selectedEarthquakeId := None;
      }
    }

    /**
      A successful poll followed by the two effects it triggers: whatever the
      stale handler filtered with, the list ends in line with the current
      selections, and the selection survives exactly when the new list shows
      it (or it is the falsy empty link).
     */
    method CompletePoll(items: seq<RawItem>, parseDate: DateParser, now: int)
      requires Valid()
      modifies this
      ensures Valid() && InSync(now) && SelectionValid()
      ensures earthquakes == LoadFeed(items, parseDate) && !loading
      ensures timeFilter == old(timeFilter) && magnitudeFilter == old(magnitudeFilter)
      ensures selectedEarthquakeId == Surviving(old(selectedEarthquakeId), filteredEarthquakes)
    {
      PollSucceeded(items, parseDate, now);
      RefilterOnChange(now);
      RevalidateSelection();
    }

    /**
      A new time window followed by the two effects it triggers: the list is
      the records filtered with the new window and the current band, and a
      selection it no longer shows is dropped.
     */
    method SelectTimeWindow(minutes: int, now: int)
      requires Valid()
      modifies this
      ensures Valid() && InSync(now) && SelectionValid()
      ensures timeFilter == minutes && magnitudeFilter == old(magnitudeFilter)
      ensures earthquakes == old(earthquakes) && loading == old(loading)
      ensures filteredEarthquakes == FilterQuakes(earthquakes, now, minutes, old(magnitudeFilter))
      ensures selectedEarthquakeId == Surviving(old(selectedEarthquakeId), filteredEarthquakes)
    {
      ChangeTimeFilter(minutes, now);
      RefilterOnChange(now);
      RevalidateSelection();
    }

    /**
      A new magnitude band followed by the two effects it triggers: the list
      is the records filtered with the current window and the new band, and a
      selection it no longer shows is dropped.
     */
    method SelectMagnitudeBand(range: MagnitudeRange, now: int)
      requires Valid()
      modifies this
      ensures Valid() && InSync(now) && SelectionValid()
      ensures magnitudeFilter == range && timeFilter == old(timeFilter)
      ensures earthquakes == old(earthquakes) && loading == old(loading)
      ensures filteredEarthquakes == FilterQuakes(earthquakes, now, old(timeFilter), range)
      ensures selectedEarthquakeId == Surviving(old(selectedEarthquakeId), filteredEarthquakes)
    {
      ChangeMagnitudeFilter(range, now);
      RefilterOnChange(now);
      RevalidateSelection();
    }

    /** `filteredEarthquakes.find(eq => eq.link === selectedEarthquakeId)`. */
    function SelectedEarthquake(): (r: Option<Quake>)
      reads this
      ensures r.Some? ==> r.value in filteredEarthquakes && selectedEarthquakeId == Some(r.value.link)
      ensures r.None? <==> selectedEarthquakeId.None? || !HasLink(filteredEarthquakes, selectedEarthquakeId.value)
    {
      FindByLink(filteredEarthquakes, selectedEarthquakeId)
    }

    /** `earthquakes[0] || {}`: with the records newest first, the newest record. */
    function LatestEarthquake(): (r: Option<Quake>)
      reads this
      ensures r.None? <==> earthquakes == []
      ensures r.Some? ==> r.value in earthquakes
      ensures Valid() && r.Some? ==> forall q :: q in earthquakes ==> q.time <= r.value.time
    {
      if earthquakes == [] then None else Some(earthquakes[0])
    }

    /** The panel shows the newest record, else "Loading..." while the first poll is pending, else "No recent earthquakes". */
    function Headline(): (r: Headline)
      reads this
      ensures r.Latest? <==> LatestEarthquake().Some?
      ensures r.Loading? <==> earthquakes == [] && loading
      ensures Valid() && r.Latest? ==> forall q :: q in earthquakes ==> q.time <= r.quake.time
    {
      match LatestEarthquake()
      case Some(q) => Latest(q)
      case None => if loading then Loading else NoRecentEarthquakes
    }

    /** The records the map draws: the selected record alone, or the whole filtered list. */
    function MapEarthquakes(): (r: seq<Quake>)
      reads this
      ensures forall q :: q in r ==> q in filteredEarthquakes
      ensures SelectedEarthquake().Some? ==> r == [SelectedEarthquake().value]
      ensures SelectedEarthquake().None? ==> r == filteredEarthquakes
    {
      match SelectedEarthquake()
      case Some(q) => [q]
      case None => filteredEarthquakes
    }
  }
}
