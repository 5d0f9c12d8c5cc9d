/**
  `filterEarthquakes` and the two option tables the dashboard offers. A
  record is kept when it passes both the time window and the magnitude band;
  the filter keeps the order of its input.
 */
module Filters {
  import opened Common
  import opened Feed
  import opened Pipeline

  const MsPerMinute := 60000

  /** The upper end of a magnitude band; the strongest band has none. */
  datatype UpperBound = Bounded(limit: real) | Infinity

  /** `'all'`, or an inclusive band `[low, high]`. */
  datatype MagnitudeRange = AllMagnitudes | Band(low: real, high: UpperBound)

  /** One entry of a drop-down: what it shows and the value it selects. */
  datatype FilterOption<T> = FilterOption(name: string, value: T)

  /** The time windows offered, in minutes. */
  const TimeFilters: seq<FilterOption<int>> := [
    FilterOption("Last 10 minutes", 10),
    FilterOption("Last 30 minutes", 30),
    FilterOption("Last hour", 60),
    FilterOption("Last 24 hours", 1440)
  ]

  /** The magnitude bands offered. */
  const MagnitudeFilters: seq<FilterOption<MagnitudeRange>> := [
    FilterOption("All magnitudes", AllMagnitudes),
    FilterOption("Minor (0 - 3.9)", Band(0.0, Bounded(3.9))),
    FilterOption("Light (4 - 4.9)", Band(4.0, Bounded(4.9))),
    FilterOption("Moderate (5 - 5.9)", Band(5.0, Bounded(5.9))),
    FilterOption("Strong (6+)", Band(6.0, Infinity))
  ]

  /** The selections the dashboard starts with: the last 24 hours, every magnitude. */
  const DefaultTimeFilter := 1440
  const DefaultMagnitudeFilter := AllMagnitudes

  /**
    The time test: skipped when `minutes` is 0 (falsy); otherwise the record
    is at most `minutes` old and not in the future. `now` and `q.time` are in
    milliseconds.
   */
  predicate TimeMatch(q: Quake, now: int, minutes: int) {
    minutes == 0 || (0 <= now - q.time && now - q.time <= minutes * MsPerMinute)
  }

  /** The magnitude test: `'all'` admits everything; a band admits numbers inside it, bounds included, and never NaN. */
  predicate MagnitudeMatch(m: JsNumber, range: MagnitudeRange) {
    match range
    case AllMagnitudes => true
    case Band(low, high) =>
      AtLeast(m, low) && (high.Infinity? || AtMost(m, high.limit))
  }

  predicate Keep(q: Quake, now: int, minutes: int, range: MagnitudeRange) {
    TimeMatch(q, now, minutes) && MagnitudeMatch(q.magnitude, range)
  }

  /** `filterEarthquakes(eqs, minutes, magnitudeRange)` with the clock read as `now`. */
  function FilterQuakes(eqs: seq<Quake>, now: int, minutes: int, range: MagnitudeRange): (r: seq<Quake>)
    ensures |r| <= |eqs|
    ensures forall q :: q in r <==> q in eqs && Keep(q, now, minutes, range)
  {
    if eqs == [] then []
    else
      var rest := FilterQuakes(eqs[1..], now, minutes, range);
      assert forall q :: q in eqs <==> q == eqs[0] || q in eqs[1..];
      if Keep(eqs[0], now, minutes, range) then [eqs[0]] + rest else rest
  }

  /** Filtering two stretches one after the other is filtering the whole: the filter keeps order. */
  lemma {:induction false} FilterAppend(a: seq<Quake>, b: seq<Quake>, now: int, minutes: int, range: MagnitudeRange)
    ensures FilterQuakes(a + b, now, minutes, range) ==
      FilterQuakes(a, now, minutes, range) + FilterQuakes(b, now, minutes, range)
  {
    if a == [] {
      assert a + b == b;
    } else {
      assert (a + b)[0] == a[0];
      assert (a + b)[1..] == a[1..] + b;
      FilterAppend(a[1..], b, now, minutes, range);
    }
  }

  /**
    The filter keeps order: wherever a record stands in the input, the
    result holds what the filter keeps before it, then the record itself if
    it passes, then what the filter keeps after it.
   */
  lemma FilterInPlace(a: seq<Quake>, q: Quake, b: seq<Quake>, now: int, minutes: int, range: MagnitudeRange)
    ensures FilterQuakes(a + [q] + b, now, minutes, range) ==
      FilterQuakes(a, now, minutes, range) + (if Keep(q, now, minutes, range) then [q] else []) +
      FilterQuakes(b, now, minutes, range)
  {
    FilterAppend(a + [q], b, now, minutes, range);
    FilterAppend(a, [q], now, minutes, range);
    FilterOne(q, now, minutes, range);
  }

  lemma FilterOne(q: Quake, now: int, minutes: int, range: MagnitudeRange)
    ensures FilterQuakes([q], now, minutes, range) == if Keep(q, now, minutes, range) then [q] else []
  {
    assert [q][1..] == [];
  }

  /** Filtering twice with the same selections and the same clock is filtering once. */
  lemma {:induction false} FilterIdempotent(eqs: seq<Quake>, now: int, minutes: int, range: MagnitudeRange)
    ensures FilterQuakes(FilterQuakes(eqs, now, minutes, range), now, minutes, range) ==
      FilterQuakes(eqs, now, minutes, range)
  {
    if eqs != [] {
      var rest := FilterQuakes(eqs[1..], now, minutes, range);
      FilterIdempotent(eqs[1..], now, minutes, range);
      if Keep(eqs[0], now, minutes, range) {
        assert ([eqs[0]] + rest)[1..] == rest;
      }
    }
  }

  /**
    Filtering with looser selections first changes nothing: a record the
    narrower selections keep is kept by the looser ones as well.
   */
  lemma {:induction false} FilterNarrowing(
    eqs: seq<Quake>, now: int,
    wideMinutes: int, wideRange: MagnitudeRange, minutes: int, range: MagnitudeRange)
    requires forall q :: Keep(q, now, minutes, range) ==> Keep(q, now, wideMinutes, wideRange)
    ensures FilterQuakes(FilterQuakes(eqs, now, wideMinutes, wideRange), now, minutes, range) ==
      FilterQuakes(eqs, now, minutes, range)
  {
    if eqs != [] {
      var rest := FilterQuakes(eqs[1..], now, wideMinutes, wideRange);
      FilterNarrowing(eqs[1..], now, wideMinutes, wideRange, minutes, range);
      if Keep(eqs[0], now, wideMinutes, wideRange) {
        assert ([eqs[0]] + rest)[1..] == rest;
      }
    }
  }

  /** The filter keeps a list newest first. */
  lemma {:induction false} FilterKeepsSorted(eqs: seq<Quake>, now: int, minutes: int, range: MagnitudeRange)
    requires SortedByTimeDesc(eqs)
    ensures SortedByTimeDesc(FilterQuakes(eqs, now, minutes, range))
  {
    if eqs != [] {
      var rest := FilterQuakes(eqs[1..], now, minutes, range);
      FilterKeepsSorted(eqs[1..], now, minutes, range);
      if Keep(eqs[0], now, minutes, range) {
        var r := [eqs[0]] + rest;
        forall i, j | 0 <= i < j < |r| ensures r[i].time >= r[j].time {
          if i == 0 {
            assert r[j] == rest[j - 1];
            assert r[j] in rest;
            assert r[j] in eqs[1..];
            var k :| 0 <= k < |eqs[1..]| && eqs[1..][k] == r[j];
            assert eqs[k + 1] == r[j];
          } else {
            assert r[i] == rest[i - 1] && r[j] == rest[j - 1];
          }
        }
      }
    }
  }

  /**
    The boundaries of the time window: a record exactly `minutes` old is kept,
    one a millisecond older is not, a record from the future is not, and
    `minutes == 0` keeps everything.
   */
  lemma TimeWindowBoundaries(q: Quake, now: int, minutes: int)
    requires minutes > 0
    ensures now - q.time == minutes * MsPerMinute ==> TimeMatch(q, now, minutes)
    ensures now - q.time == minutes * MsPerMinute + 1 ==> !TimeMatch(q, now, minutes)
    ensures q.time > now ==> !TimeMatch(q, now, minutes)
    ensures TimeMatch(q, now, 0)
  {
  }

  /** Magnitude bounds are inclusive at both ends; NaN fails every band and passes only `'all'`. */
  lemma MagnitudeBoundaries(m: real)
    ensures !MagnitudeMatch(Finite(4.0), MagnitudeFilters[1].value)
    ensures MagnitudeMatch(Finite(4.0), MagnitudeFilters[2].value)
    ensures MagnitudeMatch(Finite(3.9), MagnitudeFilters[1].value)
    ensures MagnitudeMatch(Finite(m), MagnitudeFilters[4].value) <==> m >= 6.0
    ensures MagnitudeMatch(NaN, AllMagnitudes)
    ensures forall low, high :: !MagnitudeMatch(NaN, Band(low, high))
  {
  }

  /** `MagnitudeMatch` on a band, as bounds on the value. */
  lemma BandMembership(m: real, k: int)
    requires 1 <= k < |MagnitudeFilters|
    ensures MagnitudeFilters[k].value.Band?
    ensures var b := MagnitudeFilters[k].value;
      MagnitudeMatch(Finite(m), b) <==> b.low <= m && (b.high.Infinity? || m <= b.high.limit)
  {
  }

  /**
    A magnitude the feed writes with one decimal, k/10, lies in exactly one of
    the four bands; a finer value such as 3.95 falls between two bands and
    lies in none.
   */
  lemma TenthsInExactlyOneBand(k: nat)
    ensures var m := Finite(k as real / 10.0);
      |set j | 1 <= j < |MagnitudeFilters| && MagnitudeMatch(m, MagnitudeFilters[j].value)| == 1
    ensures forall j :: 1 <= j < |MagnitudeFilters| ==> !MagnitudeMatch(Finite(3.95), MagnitudeFilters[j].value)
  {
    var m := Finite(k as real / 10.0);
    var js := set j | 1 <= j < |MagnitudeFilters| && MagnitudeMatch(m, MagnitudeFilters[j].value);
    var band := if k <= 39 then 1 else if k <= 49 then 2 else if k <= 59 then 3 else 4;
    forall j | 1 <= j < |MagnitudeFilters| ensures MagnitudeMatch(m, MagnitudeFilters[j].value) <==> j == band {
      BandMembership(m.value, j);
    }
    assert js == {band};
  }

  /** The time window scenario: a record 31 minutes old is hidden by "Last 30 minutes" and shown again by "Last hour". */
  lemma WindowScenario(eqs: seq<Quake>, now: int, range: MagnitudeRange, q: Quake)
    requires q in eqs && now - q.time == 31 * MsPerMinute && MagnitudeMatch(q.magnitude, range)
    ensures q !in FilterQuakes(eqs, now, TimeFilters[1].value, range)
    ensures q in FilterQuakes(eqs, now, TimeFilters[2].value, range)
  {
  }

  /** Every selection the drop-downs offer is at least as strict as the defaults. */
  lemma DefaultsAreWidest(q: Quake, now: int, i: nat, j: nat)
    requires i < |TimeFilters| && j < |MagnitudeFilters|
    ensures Keep(q, now, TimeFilters[i].value, MagnitudeFilters[j].value) ==>
      Keep(q, now, DefaultTimeFilter, DefaultMagnitudeFilter)
  {
  }

  /** Hence re-filtering the default view with any offered selection is filtering the records themselves. */
  lemma RefilterDefaultView(eqs: seq<Quake>, now: int, i: nat, j: nat)
    requires i < |TimeFilters| && j < |MagnitudeFilters|
    ensures var minutes, range := TimeFilters[i].value, MagnitudeFilters[j].value;
      FilterQuakes(FilterQuakes(eqs, now, DefaultTimeFilter, DefaultMagnitudeFilter), now, minutes, range) ==
        FilterQuakes(eqs, now, minutes, range)
  {
    var minutes, range := TimeFilters[i].value, MagnitudeFilters[j].value;
    forall q ensures Keep(q, now, minutes, range) ==> Keep(q, now, DefaultTimeFilter, DefaultMagnitudeFilter) {
      DefaultsAreWidest(q, now, i, j);
    }
    FilterNarrowing(eqs, now, DefaultTimeFilter, DefaultMagnitudeFilter, minutes, range);
  }
}
