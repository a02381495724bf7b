/** The summary `scanUsageData` returns: one entry per day, the days in the
    order `Object.keys(dailyStats).sort()` puts them, each with its derived
    `totalTokens`. */
module DailySummary {
  import opened Strings
  import opened UsageScan

  /** One element of the `daily` array. */
  datatype DailyAggregate = DailyAggregate(
    date: string,
    totalInputTokens: nat,
    totalOutputTokens: nat,
    totalCacheWriteTokens: nat,
    totalCacheReadTokens: nat,
    totalTokens: nat,
    requestCount: nat)

  /** Strictly ascending in the order of `sort()`, hence no date twice. */
  predicate StrictlyAscending(s: seq<string>) {
    forall i, j :: 0 <= i < j < |s| ==> LexLess(s[i], s[j])
  }

  /** `m` comes first among `keys`. */
  predicate IsLeast(m: string, keys: set<string>) {
    m in keys && forall k :: k in keys ==> k == m || LexLess(m, k)
  }

  /** The least key of a non-empty set exists. */
  lemma {:induction false} LeastExists(keys: set<string>)
    requires keys != {}
    ensures exists m :: IsLeast(m, keys)
    decreases |keys|
  {
    var x :| x in keys;
    var rest := keys - {x};
    if rest == {} {
      assert keys == {x};
      assert IsLeast(x, keys);
    } else {
      LeastExists(rest);
      var m :| IsLeast(m, rest);
      LexLessTotal(x, m);
      if LexLess(x, m) {
        forall k | k in keys
          ensures k == x || LexLess(x, k)
        {
          if k != x && k != m {
            LexLessTransitive(x, m, k);
          }
        }
        assert IsLeast(x, keys);
      } else {
        assert IsLeast(m, keys);
      }
    }
  }

  lemma LeastUnique(keys: set<string>, m: string, m': string)
    requires IsLeast(m, keys) && IsLeast(m', keys)
    ensures m == m'
  {
    LexLessAsymmetric(m, m');
  }

  lemma ConsAscending(m: string, rest: seq<string>)
    requires StrictlyAscending(rest)
    requires forall i :: 0 <= i < |rest| ==> LexLess(m, rest[i])
    ensures StrictlyAscending([m] + rest)
  {
    var s := [m] + rest;
    forall i, j | 0 <= i < j < |s|
      ensures LexLess(s[i], s[j])
    {
      assert s[j] == rest[j - 1];
      if i > 0 {
        assert s[i] == rest[i - 1];
      }
    }
  }

  /** The keys of a map in sorted order. */
  function SortedKeys(keys: set<string>): (r: seq<string>)
    ensures |r| == |keys|
    ensures forall k :: k in keys <==> k in r
    ensures StrictlyAscending(r)
    decreases |keys|
  {
    if keys == {} then []
    else
      LeastExists(keys);
      var m :| IsLeast(m, keys);
      assert forall m' :: IsLeast(m', keys) ==> m' == m by {
        forall m' | IsLeast(m', keys)
          ensures m' == m
        {
          LeastUnique(keys, m, m');
        }
      }
      var rest := SortedKeys(keys - {m});
      forall i | 0 <= i < |rest|
        ensures LexLess(m, rest[i])
      {
        assert rest[i] in keys - {m};
      }
      ConsAscending(m, rest);
      [m] + rest
  }

  /** One day's entry built from its counters. */
  function DayEntry(date: string, s: Stats): (e: DailyAggregate)
    ensures e.date == date && e.requestCount == s.messageCount
    ensures e.totalTokens == e.totalInputTokens + e.totalOutputTokens + e.totalCacheWriteTokens + e.totalCacheReadTokens
  {
    DailyAggregate(date, s.inputTokens, s.outputTokens, s.cacheCreationTokens, s.cacheReadTokens,
                   s.inputTokens + s.outputTokens + s.cacheCreationTokens + s.cacheReadTokens, s.messageCount)
  }

  function Entries(dates: seq<string>, daily: map<string, Stats>): (r: seq<DailyAggregate>)
    requires forall i :: 0 <= i < |dates| ==> dates[i] in daily
    ensures |r| == |dates|
    ensures forall i :: 0 <= i < |r| ==> r[i] == DayEntry(dates[i], daily[dates[i]])
  {
    if dates == [] then [] else [DayEntry(dates[0], daily[dates[0]])] + Entries(dates[1..], daily)
  }

  /** The dates of the entries, in order. */
  function DatesOf(r: seq<DailyAggregate>): (ds: seq<string>)
    ensures |ds| == |r| && forall i :: 0 <= i < |r| ==> ds[i] == r[i].date
  {
    if r == [] then [] else [r[0].date] + DatesOf(r[1..])
  }

  /** The `daily` array: the days sorted, each with its counters and their sum. */
  function Summary(daily: map<string, Stats>): (r: seq<DailyAggregate>)
    ensures |r| == |daily|
    ensures StrictlyAscending(DatesOf(r))
    ensures forall d :: d in daily <==> d in DatesOf(r)
    ensures forall i :: 0 <= i < |r| ==> r[i].date in daily && r[i] == DayEntry(r[i].date, daily[r[i].date])
  {
    var dates := SortedKeys(daily.Keys);
    var r := Entries(dates, daily);
    assert DatesOf(r) == dates;
    r
  }

  // ---------------------------------------------------------------- request count

  /** The sum of `requestCount` over the summary. */
  function RequestTotal(r: seq<DailyAggregate>): nat {
    if r == [] then 0 else r[0].requestCount + RequestTotal(r[1..])
  }

  predicate NoDuplicates(ds: seq<string>) {
    forall i, j :: 0 <= i < j < |ds| ==> ds[i] != ds[j]
  }

  /** The number of records on each of the days, summed. */
  function DayCounts(ds: seq<string>, rs: seq<Record>, localDate: int -> string): nat {
    if ds == [] then 0 else |OnDay(rs, ds[0], localDate)| + DayCounts(ds[1..], rs, localDate)
  }

  /** How often `d` occurs in `ds`. */
  function Occurrences(ds: seq<string>, d: string): nat {
    if ds == [] then 0 else (if ds[0] == d then 1 else 0) + Occurrences(ds[1..], d)
  }

  lemma {:induction false} OccursOnce(ds: seq<string>, d: string)
    requires NoDuplicates(ds) && d in ds
    ensures Occurrences(ds, d) == 1
  {
    if ds[0] == d {
      NeverOccurs(ds[1..], d);
    } else {
      OccursOnce(ds[1..], d);
    }
  }

  lemma {:induction false} NeverOccurs(ds: seq<string>, d: string)
    requires d !in ds
    ensures Occurrences(ds, d) == 0
  {
    if ds != [] {
      NeverOccurs(ds[1..], d);
    }
  }

  lemma {:induction false} DayCountsOneMore(ds: seq<string>, rs: seq<Record>, x: Record, localDate: int -> string)
    ensures DayCounts(ds, rs + [x], localDate) == DayCounts(ds, rs, localDate) + Occurrences(ds, DayOf(x, localDate))
  {
    if ds != [] {
      DayCountsOneMore(ds[1..], rs, x, localDate);
      Snoc(rs, x);
    }
  }

  /** Days that are all different and cover every record's day split the
      records: their per-day counts add up to the number of records. */
  lemma {:induction false} DaysPartitionRecords(ds: seq<string>, rs: seq<Record>, localDate: int -> string)
    requires NoDuplicates(ds)
    requires forall d :: d in Days(rs, localDate) ==> d in ds
    ensures DayCounts(ds, rs, localDate) == |rs|
    decreases |rs|
  {
    if rs == [] {
      ZeroCounts(ds, localDate);
    } else {
      var init := rs[..|rs| - 1];
      var x := rs[|rs| - 1];
      assert rs == init + [x];
      DaysPartitionRecords(ds, init, localDate);
      DayCountsOneMore(ds, init, x, localDate);
      OccursOnce(ds, DayOf(x, localDate));
    }
  }

  lemma {:induction false} ZeroCounts(ds: seq<string>, localDate: int -> string)
    ensures DayCounts(ds, [], localDate) == 0
  {
    if ds != [] {
      ZeroCounts(ds[1..], localDate);
    }
  }

  lemma {:induction false} RequestTotalIsDayCounts(r: seq<DailyAggregate>, rs: seq<Record>, localDate: int -> string)
    requires forall i :: 0 <= i < |r| ==> r[i].requestCount == |OnDay(rs, r[i].date, localDate)|
    ensures RequestTotal(r) == DayCounts(DatesOf(r), rs, localDate)
  {
    if r != [] {
      RequestTotalIsDayCounts(r[1..], rs, localDate);
      assert DatesOf(r)[1..] == DatesOf(r[1..]);
    }
  }

  lemma AscendingNoDuplicates(ds: seq<string>)
    requires StrictlyAscending(ds)
    ensures NoDuplicates(ds)
  {
    forall i, j | 0 <= i < j < |ds|
      ensures ds[i] != ds[j]
    {
      LexLessIrreflexive(ds[i]);
    }
  }

  /** Every counted record is counted in exactly one day: the sum of
      `requestCount` over the summary is the number of counted records. */
  lemma SummaryCountsEveryRecord(c: seq<Record>, localDate: int -> string)
    ensures RequestTotal(Summary(Aggregate(c, localDate))) == |c|
  {
    var agg := Aggregate(c, localDate);
    var r := Summary(agg);
    var ds := DatesOf(r);
    AggregateIsDailySums(c, localDate);
    forall i | 0 <= i < |r|
      ensures r[i].requestCount == |OnDay(c, r[i].date, localDate)|
    {
      assert r[i].requestCount == agg[r[i].date].messageCount;
    }
    forall d | d in Days(c, localDate)
      ensures d in ds
    {
      assert d in agg;
    }
    AscendingNoDuplicates(ds);
    RequestTotalIsDayCounts(r, c, localDate);
    DaysPartitionRecords(ds, c, localDate);
  }
}
