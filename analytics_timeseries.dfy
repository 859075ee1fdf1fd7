/** `GET /api/automation/analytics/timeseries`: messages per day over the
    window, with the "manual" and "sequence" counts of each day.

    The day of a row is `dateKey(created_at)`, the first ten characters of
    its ISO time stamp, a parameter here. The route fills a record of
    buckets keyed by day, one `forEach` step per row, and lists the buckets
    by ascending day; `Timeseries` does the same with a map and is proved to
    list each day once, in order, with the counts `TotalOn`, `ManualOn` and
    `SequenceOn`, and totals that add up to the number of rows. */
module AnalyticsTimeseries {
  import opened Base
  import opened Domain
  import AnalyticsOverview

  datatype Bucket = Bucket(date: string, total: nat, manual: nat, sequence: nat)

  // ---------------------------------------------------------------------
  // Specification
  // ---------------------------------------------------------------------

  predicate HasDay(rows: seq<MessageRow>, dateKey: int -> string, d: string) {
    exists r :: r in rows && dateKey(r.createdAt) == d
  }

  function TotalOn(rows: seq<MessageRow>, dateKey: int -> string, d: string): nat {
    if rows == [] then 0
    else TotalOn(rows[..|rows| - 1], dateKey, d) + (if dateKey(rows[|rows| - 1].createdAt) == d then 1 else 0)
  }

  function ManualOn(rows: seq<MessageRow>, dateKey: int -> string, d: string): nat {
    if rows == [] then 0
    else ManualOn(rows[..|rows| - 1], dateKey, d)
         + (if dateKey(rows[|rows| - 1].createdAt) == d && rows[|rows| - 1].source == "manual" then 1 else 0)
  }

  function SequenceOn(rows: seq<MessageRow>, dateKey: int -> string, d: string): nat {
    if rows == [] then 0
    else SequenceOn(rows[..|rows| - 1], dateKey, d)
         + (if dateKey(rows[|rows| - 1].createdAt) == d && rows[|rows| - 1].source == "sequence" then 1 else 0)
  }

  /** In every bucket the exact "manual" and "sequence" sources together count at most the total. */
  lemma {:induction false} SourcesWithinTotal(rows: seq<MessageRow>, dateKey: int -> string, d: string)
    ensures ManualOn(rows, dateKey, d) + SequenceOn(rows, dateKey, d) <= TotalOn(rows, dateKey, d)
  {
    if rows != [] {
      SourcesWithinTotal(rows[..|rows| - 1], dateKey, d);
    }
  }

  /** A day with a row has a positive total; a day without one has none. */
  lemma {:induction false} TotalPositiveIff(rows: seq<MessageRow>, dateKey: int -> string, d: string)
    ensures TotalOn(rows, dateKey, d) > 0 <==> HasDay(rows, dateKey, d)
  {
    if rows != [] {
      var init := rows[..|rows| - 1];
      TotalPositiveIff(init, dateKey, d);
      assert forall r :: r in rows <==> r in init || r == rows[|rows| - 1];
    }
  }

  function SumTotals(series: seq<Bucket>): nat {
    if series == [] then 0 else SumTotals(series[..|series| - 1]) + series[|series| - 1].total
  }

  function Dates(series: seq<Bucket>): (r: seq<string>)
    ensures |r| == |series| && forall k :: 0 <= k < |series| ==> r[k] == series[k].date
  {
    seq(|series|, k requires 0 <= k < |series| => series[k].date)
  }

  // ---------------------------------------------------------------------
  // Ordering days
  // ---------------------------------------------------------------------

  predicate Ascending(s: seq<string>) {
    forall a, b :: 0 <= a < b < |s| ==> StrLess(s[a], s[b])
  }

  predicate Distinct(s: seq<string>) {
    forall a, b :: 0 <= a < b < |s| ==> s[a] != s[b]
  }

  /** Puts a new day into an ascending list. */
  function Insert(s: seq<string>, x: string): (r: seq<string>)
    requires Ascending(s) && x !in s
    ensures Ascending(r)
    ensures forall d :: d in r <==> d in s || d == x
    ensures |r| == |s| + 1
  {
    if s == [] then [x]
    else if StrLess(x, s[0]) then
      forall k | 0 < k < |s| ensures StrLess(x, s[k]) {
        StrLessTransitive(x, s[0], s[k]);
      }
      [x] + s
    else
      StrLessTotal(x, s[0]);
      assert forall d :: d in s[1..] ==> StrLess(s[0], d) by {
        forall d | d in s[1..] ensures StrLess(s[0], d) {
          var k :| 0 <= k < |s[1..]| && s[1..][k] == d;
          assert s[k + 1] == d;
        }
      }
      var t := Insert(s[1..], x);
      assert forall k :: 0 <= k < |t| ==> t[k] in t;
      [s[0]] + t
  }

  /** `sort((a, b) => a.date.localeCompare(b.date))` on distinct days. */
  function SortDays(s: seq<string>): (r: seq<string>)
    requires Distinct(s)
    ensures Ascending(r)
    ensures forall d :: d in r <==> d in s
    ensures |r| == |s|
  {
    if s == [] then []
    else
      var init := s[..|s| - 1];
      assert Distinct(init);
      assert forall d :: d in s <==> d in init || d == s[|s| - 1];
      Insert(SortDays(init), s[|s| - 1])
  }

  // ---------------------------------------------------------------------
  // Sums over the bucket record
  // ---------------------------------------------------------------------

  predicate Covers(keys: seq<string>, bucket: map<string, Bucket>) {
    forall k :: 0 <= k < |keys| ==> keys[k] in bucket
  }

  /** The totals of the buckets named by `keys`. */
  function SumOver(keys: seq<string>, bucket: map<string, Bucket>): nat
    requires Covers(keys, bucket)
  {
    if keys == [] then 0 else SumOver(keys[..|keys| - 1], bucket) + bucket[keys[|keys| - 1]].total
  }

  lemma {:induction false} SumOverOther(keys: seq<string>, bucket: map<string, Bucket>, d: string, b: Bucket)
    requires Covers(keys, bucket) && d !in keys
    ensures Covers(keys, bucket[d := b]) && SumOver(keys, bucket[d := b]) == SumOver(keys, bucket)
  {
    if keys != [] {
      SumOverOther(keys[..|keys| - 1], bucket, d, b);
    }
  }

  lemma {:induction false} SumOverUpdate(keys: seq<string>, bucket: map<string, Bucket>, d: string, b: Bucket)
    requires Covers(keys, bucket) && Distinct(keys) && d in keys
    ensures Covers(keys, bucket[d := b])
    ensures SumOver(keys, bucket[d := b]) + bucket[d].total == SumOver(keys, bucket) + b.total
  {
    var init := keys[..|keys| - 1];
    assert Distinct(init);
    if keys[|keys| - 1] == d {
      assert d !in init;
      SumOverOther(init, bucket, d, b);
    } else {
      assert d in init;
      SumOverUpdate(init, bucket, d, b);
    }
  }

  lemma {:induction false} SumOverInsert(s: seq<string>, x: string, bucket: map<string, Bucket>)
    requires Ascending(s) && x !in s && Covers(s, bucket) && x in bucket
    ensures Covers(Insert(s, x), bucket)
    ensures SumOver(Insert(s, x), bucket) == SumOver(s, bucket) + bucket[x].total
  {
    var r := Insert(s, x);
    assert forall k :: 0 <= k < |r| ==> r[k] in r;
    SumOverFront(r, bucket);
    if s == [] {
    } else if StrLess(x, s[0]) {
      assert r[1..] == s;
    } else {
      InsertLater(s, x);
      assert r[1..] == Insert(s[1..], x);
      SumOverInsert(s[1..], x, bucket);
      SumOverFront(s, bucket);
    }
  }

  /** An element above the head is inserted into the tail. */
  lemma InsertLater(s: seq<string>, x: string)
    requires Ascending(s) && x !in s && s != [] && !StrLess(x, s[0])
    ensures Ascending(s[1..]) && x !in s[1..]
    ensures Insert(s, x) == [s[0]] + Insert(s[1..], x)
  {
    AscendingTail(s);
    assert x !in s[1..] by {
      assert forall k :: 0 <= k < |s[1..]| ==> s[1..][k] == s[k + 1];
    }
  }

  lemma AscendingTail(s: seq<string>)
    requires Ascending(s) && s != []
    ensures Ascending(s[1..])
  {
    forall a, b | 0 <= a < b < |s| - 1 ensures StrLess(s[1..][a], s[1..][b]) {
      assert s[1..][a] == s[a + 1] && s[1..][b] == s[b + 1];
    }
  }

  /** The sum taken from the front: the first total plus the rest. */
  lemma {:induction false} SumOverFront(keys: seq<string>, bucket: map<string, Bucket>)
    requires Covers(keys, bucket) && keys != []
    ensures Covers(keys[1..], bucket)
    ensures SumOver(keys, bucket) == bucket[keys[0]].total + SumOver(keys[1..], bucket)
  {
    assert forall k :: 0 <= k < |keys| - 1 ==> keys[1..][k] == keys[k + 1];
    if |keys| > 1 {
      var init := keys[..|keys| - 1];
      assert init[1..] == keys[1..][..|keys[1..]| - 1];
      SumOverFront(init, bucket);
    } else {
      assert keys[1..] == [];
    }
  }

  lemma {:induction false} SumOverSorted(keys: seq<string>, bucket: map<string, Bucket>)
    requires Distinct(keys) && Covers(keys, bucket)
    ensures Covers(SortDays(keys), bucket)
    ensures SumOver(SortDays(keys), bucket) == SumOver(keys, bucket)
  {
    var r := SortDays(keys);
    assert forall k :: 0 <= k < |r| ==> r[k] in r;
    if keys != [] {
      var init := keys[..|keys| - 1];
      assert Distinct(init);
      SumOverSorted(init, bucket);
      assert keys[|keys| - 1] in keys;
      SumOverInsert(SortDays(init), keys[|keys| - 1], bucket);
    }
  }

  /** The listed buckets of `keys`. */
  function Listed(keys: seq<string>, bucket: map<string, Bucket>): (series: seq<Bucket>)
    requires Covers(keys, bucket)
    ensures |series| == |keys| && forall k :: 0 <= k < |keys| ==> series[k] == bucket[keys[k]]
    ensures SumTotals(series) == SumOver(keys, bucket)
  {
    if keys == [] then []
    else
      var init := keys[..|keys| - 1];
      var series := Listed(init, bucket) + [bucket[keys[|keys| - 1]]];
      assert series[..|series| - 1] == Listed(init, bucket);
      series
  }

  // ---------------------------------------------------------------------
  // The bucketing
  // ---------------------------------------------------------------------

  /** Every day of `keys` has a bucket and no other day does. */
  ghost predicate Keyed(keys: seq<string>, bucket: map<string, Bucket>) {
    && Distinct(keys) && Covers(keys, bucket)
    && (forall d :: d in bucket <==> d in keys)
  }

  /** The keys are the days of `rows`. */
  ghost predicate Seen(keys: seq<string>, rows: seq<MessageRow>, dateKey: int -> string) {
    forall d :: d in keys <==> HasDay(rows, dateKey, d)
  }

  /** Each bucket holds its day and that day's counts over `rows`. */
  ghost predicate Counted(bucket: map<string, Bucket>, rows: seq<MessageRow>, dateKey: int -> string) {
    forall d :: d in bucket ==>
      && bucket[d].date == d
      && bucket[d].total == TotalOn(rows, dateKey, d)
      && bucket[d].manual == ManualOn(rows, dateKey, d)
      && bucket[d].sequence == SequenceOn(rows, dateKey, d)
  }

  /** The record after the rows `rows`: one bucket per day seen, keyed by it, with its counts. */
  ghost predicate Buckets(keys: seq<string>, bucket: map<string, Bucket>, rows: seq<MessageRow>,
                          dateKey: int -> string)
  {
    && Keyed(keys, bucket)
    && Seen(keys, rows, dateKey)
    && Counted(bucket, rows, dateKey)
    && SumOver(keys, bucket) == |rows|
  }

  lemma RowsSnoc(rows: seq<MessageRow>, i: int, dateKey: int -> string, d: string)
    requires 0 <= i < |rows|
    ensures var r := rows[i];
      && (HasDay(rows[..i + 1], dateKey, d) <==> HasDay(rows[..i], dateKey, d) || dateKey(r.createdAt) == d)
      && TotalOn(rows[..i + 1], dateKey, d) == TotalOn(rows[..i], dateKey, d) + (if dateKey(r.createdAt) == d then 1 else 0)
      && ManualOn(rows[..i + 1], dateKey, d)
         == ManualOn(rows[..i], dateKey, d) + (if dateKey(r.createdAt) == d && r.source == "manual" then 1 else 0)
      && SequenceOn(rows[..i + 1], dateKey, d)
         == SequenceOn(rows[..i], dateKey, d) + (if dateKey(r.createdAt) == d && r.source == "sequence" then 1 else 0)
  {
    assert rows[..i + 1] == rows[..i] + [rows[i]];
    assert rows[..i + 1][..i] == rows[..i];
  }

  /** A day not seen before gets an empty bucket at the end of the keys, which keeps the counts. */
  lemma NewDayBucket(keys0: seq<string>, bucket0: map<string, Bucket>, rows: seq<MessageRow>, i: int,
                     dateKey: int -> string)
    requires 0 <= i < |rows|
    requires Buckets(keys0, bucket0, rows[..i], dateKey)
    requires dateKey(rows[i].createdAt) !in bucket0
    ensures var d := dateKey(rows[i].createdAt);
      var keys := keys0 + [d];
      var bucket := bucket0[d := Bucket(d, 0, 0, 0)];
      && Keyed(keys, bucket) && Counted(bucket, rows[..i], dateKey) && SumOver(keys, bucket) == i
  {
    var d := dateKey(rows[i].createdAt);
    assert !HasDay(rows[..i], dateKey, d);
    TotalPositiveIff(rows[..i], dateKey, d);
    SourcesWithinTotal(rows[..i], dateKey, d);
    assert TotalOn(rows[..i], dateKey, d) == 0;
    var empty := Bucket(d, 0, 0, 0);
    SumOverOther(keys0, bucket0, d, empty);
    var keys := keys0 + [d];
    assert keys[..|keys| - 1] == keys0;
  }

  /** The keys after a row are the keys before it and the row's day. */
  lemma SeenAfterRow(keys0: seq<string>, keys: seq<string>, rows: seq<MessageRow>, i: int,
                     dateKey: int -> string)
    requires 0 <= i < |rows|
    requires Seen(keys0, rows[..i], dateKey)
    requires forall x :: x in keys <==> x in keys0 || x == dateKey(rows[i].createdAt)
    ensures Seen(keys, rows[..i + 1], dateKey)
  {
    forall x ensures x in keys <==> HasDay(rows[..i + 1], dateKey, x) {
      RowsSnoc(rows, i, dateKey, x);
    }
  }

  /** The first half of a `forEach` step: the row's day gets an empty bucket when it has none. */
  method OpenBucket(keys0: seq<string>, bucket0: map<string, Bucket>, rows: seq<MessageRow>, i: int,
                    dateKey: int -> string)
    returns (keys: seq<string>, bucket: map<string, Bucket>)
    requires 0 <= i < |rows|
    requires Buckets(keys0, bucket0, rows[..i], dateKey)
    ensures Keyed(keys, bucket) && Seen(keys, rows[..i + 1], dateKey)
    ensures Counted(bucket, rows[..i], dateKey) && SumOver(keys, bucket) == i
  {
    keys, bucket := keys0, bucket0;
    var d := dateKey(rows[i].createdAt);
    if d !in bucket {
      NewDayBucket(keys0, bucket0, rows, i, dateKey);
      bucket := bucket[d := Bucket(d, 0, 0, 0)];
      keys := keys + [d];
    }
    SeenAfterRow(keys0, keys, rows, i, dateKey);
  }

  /** The second half: the row is counted in its day's bucket. */
  method CountRow(keys: seq<string>, bucket0: map<string, Bucket>, rows: seq<MessageRow>, i: int,
                  dateKey: int -> string)
    returns (bucket: map<string, Bucket>)
    requires 0 <= i < |rows|
    requires Keyed(keys, bucket0) && Seen(keys, rows[..i + 1], dateKey)
    requires Counted(bucket0, rows[..i], dateKey) && SumOver(keys, bucket0) == i
    ensures Buckets(keys, bucket, rows[..i + 1], dateKey)
  {
    var row := rows[i];
    var d := dateKey(row.createdAt);
    RowsSnoc(rows, i, dateKey, d);
    assert d in keys;
    var b := bucket0[d];
    var b' := b.(total := b.total + 1,
                 manual := if row.source == "manual" then b.manual + 1 else b.manual,
                 sequence := if row.source == "sequence" then b.sequence + 1 else b.sequence);
    SumOverUpdate(keys, bucket0, d, b');
    bucket := bucket0[d := b'];
    forall x | x in bucket
      ensures bucket[x].date == x
      ensures bucket[x].total == TotalOn(rows[..i + 1], dateKey, x)
      ensures bucket[x].manual == ManualOn(rows[..i + 1], dateKey, x)
      ensures bucket[x].sequence == SequenceOn(rows[..i + 1], dateKey, x)
    {
      RowsSnoc(rows, i, dateKey, x);
    }
  }

  /** One `forEach` step: create the row's bucket when missing, then count the row in it. */
  method AddRow(keys0: seq<string>, bucket0: map<string, Bucket>, rows: seq<MessageRow>, i: int,
                dateKey: int -> string)
    returns (keys: seq<string>, bucket: map<string, Bucket>)
    requires 0 <= i < |rows|
    requires Buckets(keys0, bucket0, rows[..i], dateKey)
    ensures Buckets(keys, bucket, rows[..i + 1], dateKey)
  {
    var empties;
    keys, empties := OpenBucket(keys0, bucket0, rows, i, dateKey);
    bucket := CountRow(keys, empties, rows, i, dateKey);
  }

  /** The `for` loop over the rows. */
  method BucketRows(rows: seq<MessageRow>, dateKey: int -> string)
    returns (keys: seq<string>, bucket: map<string, Bucket>)
    ensures Buckets(keys, bucket, rows, dateKey)
  {
    keys, bucket := [], map[];
    assert rows[..0] == [];
    var i := 0;
    while i < |rows|
      invariant 0 <= i <= |rows|
      invariant Buckets(keys, bucket, rows[..i], dateKey)
    {
      keys, bucket := AddRow(keys, bucket, rows, i, dateKey);
      i := i + 1;
    }
    assert rows[..|rows|] == rows;
  }

  /** The buckets of all rows, listed by ascending day, are one per day seen, with that day's
      counts, and their totals add up to the number of rows. */
  lemma ListedSeries(keys: seq<string>, bucket: map<string, Bucket>, rows: seq<MessageRow>, dateKey: int -> string)
    requires Buckets(keys, bucket, rows, dateKey)
    ensures Covers(SortDays(keys), bucket)
    ensures var series := Listed(SortDays(keys), bucket);
      && Ascending(Dates(series))
      && (forall d :: d in Dates(series) <==> HasDay(rows, dateKey, d))
      && (forall k :: 0 <= k < |series| ==>
            var d := series[k].date;
            && series[k].total == TotalOn(rows, dateKey, d)
            && series[k].manual == ManualOn(rows, dateKey, d)
            && series[k].sequence == SequenceOn(rows, dateKey, d))
      && SumTotals(series) == |rows|
  {
    SortedCovers(keys, bucket);
    ListedDays(keys, bucket, rows, dateKey);
    ListedCounts(keys, bucket, rows, dateKey);
    SumOverSorted(keys, bucket);
  }

  lemma SortedCovers(keys: seq<string>, bucket: map<string, Bucket>)
    requires Keyed(keys, bucket)
    ensures Covers(SortDays(keys), bucket)
  {
    var sorted := SortDays(keys);
    assert forall k :: 0 <= k < |sorted| ==> sorted[k] in sorted;
  }

  /** The listed days are the sorted keys. */
  lemma ListedDays(keys: seq<string>, bucket: map<string, Bucket>, rows: seq<MessageRow>, dateKey: int -> string)
    requires Buckets(keys, bucket, rows, dateKey)
    ensures Covers(SortDays(keys), bucket)
    ensures var series := Listed(SortDays(keys), bucket);
      && Ascending(Dates(series))
      && (forall d :: d in Dates(series) <==> HasDay(rows, dateKey, d))
  {
    SortedCovers(keys, bucket);
    var sorted := SortDays(keys);
    var series := Listed(sorted, bucket);
    assert Dates(series) == sorted;
  }

  /** Each listed bucket holds its day's counts. */
  lemma ListedCounts(keys: seq<string>, bucket: map<string, Bucket>, rows: seq<MessageRow>, dateKey: int -> string)
    requires Buckets(keys, bucket, rows, dateKey)
    ensures Covers(SortDays(keys), bucket)
    ensures var series := Listed(SortDays(keys), bucket);
      forall k :: 0 <= k < |series| ==>
        var d := series[k].date;
        && series[k].total == TotalOn(rows, dateKey, d)
        && series[k].manual == ManualOn(rows, dateKey, d)
        && series[k].sequence == SequenceOn(rows, dateKey, d)
  {
    SortedCovers(keys, bucket);
    var sorted := SortDays(keys);
    var series := Listed(sorted, bucket);
    forall k | 0 <= k < |series|
      ensures series[k].total == TotalOn(rows, dateKey, series[k].date)
      ensures series[k].manual == ManualOn(rows, dateKey, series[k].date)
      ensures series[k].sequence == SequenceOn(rows, dateKey, series[k].date)
    {
      assert series[k] == bucket[sorted[k]] && sorted[k] in bucket;
    }
  }

  /** The whole bucketing and listing. */
  method Timeseries(rows: seq<MessageRow>, dateKey: int -> string) returns (series: seq<Bucket>)
    ensures Ascending(Dates(series))
    ensures forall d :: d in Dates(series) <==> HasDay(rows, dateKey, d)
    ensures forall k :: 0 <= k < |series| ==>
              var d := series[k].date;
              && series[k].total == TotalOn(rows, dateKey, d)
              && series[k].manual == ManualOn(rows, dateKey, d)
              && series[k].sequence == SequenceOn(rows, dateKey, d)
    ensures SumTotals(series) == |rows|
  {
    var keys, bucket := BucketRows(rows, dateKey);
    ListedSeries(keys, bucket, rows, dateKey);
    var sorted := SortDays(keys);
    series := Listed(sorted, bucket);
  }

  datatype TimeseriesResponse = Series(series: seq<Bucket>, windowDays: int) | SeriesFailed(status: int, error: string)

  /** The route: the window as in the overview (a NaN window, or one reaching before the first date,
      throws "Invalid time value" when the date is formatted), 500 when the messages cannot be
      loaded, else the series of the window's rows. */
  method GetTimeseries(daysParam: Option<string>, number: string -> Option<int>, now: int,
                       messages: seq<MessageRow>, loadFails: bool, dateKey: int -> string)
    returns (r: TimeseriesResponse)
    ensures AnalyticsOverview.WindowStart(daysParam, number, now).None? ==> r == SeriesFailed(500, "Invalid time value")
    ensures AnalyticsOverview.WindowStart(daysParam, number, now).Some? && loadFails ==>
              r == SeriesFailed(500, "Failed to load timeseries")
    ensures r.Series? <==> AnalyticsOverview.WindowStart(daysParam, number, now).Some? && !loadFails
    ensures r.Series? ==>
              var rows := AnalyticsOverview.InWindow(messages, now - r.windowDays * AnalyticsOverview.DayMs);
              && r.windowDays == AnalyticsOverview.WindowDays(daysParam, number).value
              && Ascending(Dates(r.series))
              && (forall d :: d in Dates(r.series) <==> HasDay(rows, dateKey, d))
              && (forall k :: 0 <= k < |r.series| ==>
                    && r.series[k].total == TotalOn(rows, dateKey, r.series[k].date)
                    && r.series[k].manual == ManualOn(rows, dateKey, r.series[k].date)
                    && r.series[k].sequence == SequenceOn(rows, dateKey, r.series[k].date))
              && SumTotals(r.series) == |rows|
  {
    var since := AnalyticsOverview.WindowStart(daysParam, number, now);
    if since.None? {
      return SeriesFailed(500, "Invalid time value");
    }
    if loadFails {
      return SeriesFailed(500, "Failed to load timeseries");
    }
    var rows := AnalyticsOverview.InWindow(messages, since.value);
    var series := Timeseries(rows, dateKey);
    r := Series(series, AnalyticsOverview.WindowDays(daysParam, number).value);
  }
}
