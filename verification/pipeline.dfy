/**
  The pipeline a successful poll runs over the feed: parse every item, drop
  the ones that parse to nothing, and sort newest first. JavaScript's
  `Array.prototype.sort` is stable, so records with the same instant keep
  their feed order.
 */
module Pipeline {
  import opened Common
  import opened Feed

  /** `items.map(parse)`. */
  function ParseEach(items: seq<RawItem>, parse: RawItem -> Option<Quake>): (r: seq<Option<Quake>>)
    ensures |r| == |items|
    ensures forall i :: 0 <= i < |items| ==> r[i] == parse(items[i])
  {
    seq(|items|, i requires 0 <= i < |items| => parse(items[i]))
  }

  /** Mapping over two stretches one after the other is mapping over the whole. */
  lemma ParseEachAppend(a: seq<RawItem>, b: seq<RawItem>, parse: RawItem -> Option<Quake>)
    ensures ParseEach(a + b, parse) == ParseEach(a, parse) + ParseEach(b, parse)
  {
  }

  /** `.filter(item => item !== null)`: the records, in order, without the nulls. */
  function Records(os: seq<Option<Quake>>): (r: seq<Quake>)
    ensures |r| <= |os|
    ensures forall q :: q in r <==> Some(q) in os
  {
    if os == [] then []
    else
      var rest := Records(os[1..]);
      assert forall o :: o in os[1..] ==> o in os;
      assert forall o :: o in os ==> o == os[0] || o in os[1..];
      match os[0]
      case None => rest
      case Some(q) => [q] + rest
  }

  /** Filtering out the nulls of two stretches one after the other is filtering the whole. */
  lemma {:induction false} RecordsAppend(a: seq<Option<Quake>>, b: seq<Option<Quake>>)
    ensures Records(a + b) == Records(a) + Records(b)
  {
    if a == [] {
      assert a + b == b;
    } else {
      assert (a + b)[0] == a[0];
      assert (a + b)[1..] == a[1..] + b;
      RecordsAppend(a[1..], b);
    }
  }

  /** `parseEarthquakeItem` with the date parser fixed. */
  function Parser(parseDate: DateParser): RawItem -> Option<Quake> {
    item => ParseItem(item, parseDate)
  }

  /** `items.map(parseEarthquakeItem).filter(item => item !== null)`. */
  function ParseAll(items: seq<RawItem>, parseDate: DateParser): (r: seq<Quake>)
    ensures |r| <= |items|
  {
    Records(ParseEach(items, Parser(parseDate)))
  }

  /** The records kept are exactly the successful parses. */
  lemma ParseAllContents(items: seq<RawItem>, parseDate: DateParser)
    ensures forall q :: q in ParseAll(items, parseDate) <==>
      exists i :: 0 <= i < |items| && ParseItem(items[i], parseDate) == Some(q)
  {
    var os := ParseEach(items, Parser(parseDate));
    assert forall q :: Some(q) in os <==> exists i :: 0 <= i < |items| && os[i] == Some(q);
  }

  /** Parsing a concatenated feed is parsing each part: no item's fate depends on another's. */
  lemma ParseAllAppend(a: seq<RawItem>, b: seq<RawItem>, parseDate: DateParser)
    ensures ParseAll(a + b, parseDate) == ParseAll(a, parseDate) + ParseAll(b, parseDate)
  {
    var parse := Parser(parseDate);
    ParseEachAppend(a, b, parse);
    RecordsAppend(ParseEach(a, parse), ParseEach(b, parse));
  }

  /** Every time in `qs` is at least the next one: newest first. */
  predicate SortedByTimeDesc(qs: seq<Quake>) {
    forall i, j :: 0 <= i < j < |qs| ==> qs[i].time >= qs[j].time
  }

  /** The records of `qs` with instant `t`, in their order in `qs`. */
  function WithTime(qs: seq<Quake>, t: int): (r: seq<Quake>)
    ensures forall q :: q in r <==> q in qs && q.time == t
  {
    if qs == [] then []
    else if qs[0].time == t then [qs[0]] + WithTime(qs[1..], t)
    else WithTime(qs[1..], t)
  }

  /**
    Inserts `q`, which came earlier in the feed than every record of
    `sorted`, in front of the first record that is not newer than it.
   */
  function Insert(q: Quake, sorted: seq<Quake>): (r: seq<Quake>)
    requires SortedByTimeDesc(sorted)
    ensures SortedByTimeDesc(r)
    ensures multiset(r) == multiset(sorted) + multiset{q}
  {
    if sorted == [] || sorted[0].time <= q.time then
      SortedCons(q, sorted);
      [q] + sorted
    else
      var tail := Insert(q, sorted[1..]);
      assert sorted == [sorted[0]] + sorted[1..];
      TailNoNewerThanHead(sorted, q, tail);
      SortedCons(sorted[0], tail);
      [sorted[0]] + tail
  }

  /** Whatever `Insert` puts behind the head of a newest-first list is no newer than that head. */
  lemma TailNoNewerThanHead(sorted: seq<Quake>, q: Quake, tail: seq<Quake>)
    requires SortedByTimeDesc(sorted) && sorted != [] && q.time < sorted[0].time
    requires multiset(tail) == multiset(sorted[1..]) + multiset{q}
    ensures forall j :: 0 <= j < |tail| ==> tail[j].time <= sorted[0].time
  {
    forall j | 0 <= j < |tail| ensures tail[j].time <= sorted[0].time {
      assert tail[j] in multiset(tail);
      if tail[j] != q {
        assert tail[j] in multiset(sorted[1..]);
        HeadIsNewest(sorted, tail[j]);
      }
    }
  }

  /** In a newest-first list, the head is no older than any record after it. */
  lemma HeadIsNewest(sorted: seq<Quake>, x: Quake)
    requires SortedByTimeDesc(sorted) && sorted != [] && x in sorted[1..]
    ensures x.time <= sorted[0].time
  {
    var k :| 0 <= k < |sorted[1..]| && sorted[1..][k] == x;
    assert sorted[k + 1] == x;
  }

  /** A record no older than every record of a newest-first list can go in front of it. */
  lemma SortedCons(x: Quake, tail: seq<Quake>)
    requires SortedByTimeDesc(tail)
    requires forall j :: 0 <= j < |tail| ==> tail[j].time <= x.time
    ensures SortedByTimeDesc([x] + tail)
  {
    var r := [x] + tail;
    forall i, j | 0 <= i < j < |r| ensures r[i].time >= r[j].time {
      assert r[j] == tail[j - 1];
      if i > 0 {
        assert r[i] == tail[i - 1];
      }
    }
  }

  /**
    `.sort((a, b) => b.pubDate - a.pubDate)`: a stable sort, newest first.
    `SortKeepsFeedOrder` states the stability.
   */
  function SortByTimeDesc(qs: seq<Quake>): (r: seq<Quake>)
    ensures SortedByTimeDesc(r)
    ensures multiset(r) == multiset(qs)
  {
    if qs == [] then []
    else
      assert qs == [qs[0]] + qs[1..];
      Insert(qs[0], SortByTimeDesc(qs[1..]))
  }

  /** Inserting `q` adds it to the front of its own instant's records and leaves the others alone. */
  lemma {:induction false} InsertWithTime(q: Quake, sorted: seq<Quake>, t: int)
    requires SortedByTimeDesc(sorted)
    ensures WithTime(Insert(q, sorted), t) == if q.time == t then [q] + WithTime(sorted, t) else WithTime(sorted, t)
  {
    if sorted == [] || sorted[0].time <= q.time {
      assert ([q] + sorted)[1..] == sorted;
    } else {
      InsertWithTime(q, sorted[1..], t);
      var r := Insert(q, sorted);
      assert r[1..] == Insert(q, sorted[1..]);
      if q.time == t {
        assert sorted[0].time != t;
      }
    }
  }

  /** Stability: records sharing an instant come out in their feed order. */
  lemma {:induction false} SortKeepsFeedOrder(qs: seq<Quake>, t: int)
    ensures WithTime(SortByTimeDesc(qs), t) == WithTime(qs, t)
  {
    if qs != [] {
      SortKeepsFeedOrder(qs[1..], t);
      InsertWithTime(qs[0], SortByTimeDesc(qs[1..]), t);
    }
  }

  /** The records a successful poll stores: every accepted item, newest first. */
  function LoadFeed(items: seq<RawItem>, parseDate: DateParser): (r: seq<Quake>)
    ensures SortedByTimeDesc(r)
    ensures multiset(r) == multiset(ParseAll(items, parseDate))
  {
    SortByTimeDesc(ParseAll(items, parseDate))
  }

  /** The stored records are exactly the successful parses, and the first one is the newest. */
  lemma LoadFeedContents(items: seq<RawItem>, parseDate: DateParser)
    ensures var r := LoadFeed(items, parseDate);
      && (forall q :: q in r <==> exists i :: 0 <= i < |items| && ParseItem(items[i], parseDate) == Some(q))
      && (r != [] ==> forall q :: q in r ==> r[0].time >= q.time)
  {
    var r := LoadFeed(items, parseDate);
    ParseAllContents(items, parseDate);
    forall q ensures q in r <==> q in ParseAll(items, parseDate) {
      assert q in r <==> q in multiset(r);
    }
  }

  /** Dropping an item that parses to nothing from between two stretches of the feed changes nothing. */
  lemma {:induction false} RecordsSkipNull(a: seq<Option<Quake>>, b: seq<Option<Quake>>)
    ensures Records(a + [None] + b) == Records(a + b)
  {
    RecordsAppend(a + [None], b);
    RecordsAppend(a, [None]);
    RecordsAppend(a, b);
    var rejected: seq<Option<Quake>> := [None];
    assert Records(rejected) == [] by {
      assert rejected[1..] == [];
    }
  }

  /** Dropping a rejected item from between two stretches of the feed changes nothing. */
  lemma ParseAllSkipsRejected(pre: seq<RawItem>, item: RawItem, post: seq<RawItem>, parseDate: DateParser)
    requires item.title.None? || parseDate(item.pubDate + " GMT").None?
    ensures ParseAll(pre + [item] + post, parseDate) == ParseAll(pre + post, parseDate)
  {
    var parse := Parser(parseDate);
    assert parse(item) == None;
    ParseEachAppend(pre + [item], post, parse);
    ParseEachAppend(pre, [item], parse);
    ParseEachAppend(pre, post, parse);
    assert ParseEach([item], parse) == [None];
    RecordsSkipNull(ParseEach(pre, parse), ParseEach(post, parse));
  }

  /** An item without a title or with a date that does not parse is as if it were not in the feed. */
  lemma RejectedItemIgnored(items: seq<RawItem>, parseDate: DateParser, i: nat)
    requires i < |items|
    requires items[i].title.None? || parseDate(items[i].pubDate + " GMT").None?
    ensures LoadFeed(items, parseDate) == LoadFeed(items[..i] + items[i + 1..], parseDate)
  {
    assert items == items[..i] + [items[i]] + items[i + 1..];
    ParseAllSkipsRejected(items[..i], items[i], items[i + 1..], parseDate);
  }
}
