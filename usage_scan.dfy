/** What `scanUsageData` computes from the `.jsonl` files: the filter chain
    each line goes through, the message-id set shared across the whole scan,
    and the per-day counters. Each line arrives already parsed: `None` is a
    line that `JSON.parse` rejects or whose handling throws, which the scan
    skips. */
module UsageScan {
  import opened Wrappers
  import opened FileTree

  /** `new Date(entry.timestamp)`: a time in milliseconds, or the invalid date
      an unparseable timestamp gives. */
  datatype Time = At(ms: int) | InvalidDate

  /** The fields of one parsed line the scan looks at.
      `recordType` is `entry.type`; `timestamp` is `None` when
      `entry.timestamp` is falsy; `messageId` is `entry.message.id`;
      `usage` holds the keys of `entry.message.usage` (an empty map when it is
      missing) with their token counts. */
  datatype Record = Record(recordType: Option<string>, timestamp: Option<Time>, messageId: Option<string>, usage: map<string, nat>)

  type Line = Option<Record>

  /** A file's contents as lines, or the error `readFile` fails with. */
  type FileContent = Result<seq<Line>, string>

  const AssistantType: string := "assistant"

  /** Ninety days in milliseconds. */
  const RetentionMs: int := 90 * 24 * 60 * 60 * 1000

  /** What `${year}-${month}-${day}` gives for the invalid date. */
  const InvalidDateKey: string := "NaN-NaN-NaN"

  const InputTokensKey: string := "input_tokens"
  const OutputTokensKey: string := "output_tokens"
  const CacheCreationKey: string := "cache_creation_input_tokens"
  const CacheReadKey: string := "cache_read_input_tokens"

  /** The oldest time still counted, for the clock reading `now`. */
  function Cutoff(now: int): int {
    now - RetentionMs
  }

  /** The filter chain: an assistant message with a timestamp that is not
      before the cutoff and a non-empty usage object. An invalid date is never
      before the cutoff, since comparisons with NaN are false. */
  predicate Qualifies(r: Record, cutoff: int) {
    && r.recordType == Some(AssistantType)
    && r.timestamp.Some?
    && !(r.timestamp.value.At? && r.timestamp.value.ms < cutoff)
    && |r.usage| > 0
  }

  /** The local calendar day `YYYY-MM-DD` of a record's timestamp, given the
      time zone's `localDate`; the scan only asks this of records that have a
      timestamp. */
  function DayOf(r: Record, localDate: int -> string): string {
    match r.timestamp
    case Some(At(ms)) => localDate(ms)
    case _ => InvalidDateKey
  }

  /** The id the scan deduplicates on: only a non-empty id is truthy. */
  function CountedId(r: Record): Option<string> {
    if r.messageId.Some? && r.messageId.value != "" then r.messageId else None
  }

  /** The counters kept for one day. */
  datatype Stats = Stats(inputTokens: nat, outputTokens: nat, cacheCreationTokens: nat, cacheReadTokens: nat, messageCount: nat)

  const NoStats: Stats := Stats(0, 0, 0, 0, 0)

  /** `usage[key] || 0`: a missing field adds nothing. */
  function Field(usage: map<string, nat>, key: string): nat {
    if key in usage then usage[key] else 0
  }

  /** One record's usage added to a day's counters. */
  function AddUsage(s: Stats, usage: map<string, nat>): (r: Stats)
    ensures r.messageCount == s.messageCount + 1
  {
    Stats(s.inputTokens + Field(usage, InputTokensKey),
          s.outputTokens + Field(usage, OutputTokensKey),
          s.cacheCreationTokens + Field(usage, CacheCreationKey),
          s.cacheReadTokens + Field(usage, CacheReadKey),
          s.messageCount + 1)
  }

  /** Each counter grows by the record's field of that name, and a field the
      usage object lacks adds nothing. */
  lemma AddUsageFields(s: Stats, usage: map<string, nat>)
    ensures var r := AddUsage(s, usage);
            && (InputTokensKey in usage ==> r.inputTokens == s.inputTokens + usage[InputTokensKey])
            && (InputTokensKey !in usage ==> r.inputTokens == s.inputTokens)
            && (OutputTokensKey in usage ==> r.outputTokens == s.outputTokens + usage[OutputTokensKey])
            && (OutputTokensKey !in usage ==> r.outputTokens == s.outputTokens)
            && (CacheCreationKey in usage ==> r.cacheCreationTokens == s.cacheCreationTokens + usage[CacheCreationKey])
            && (CacheCreationKey !in usage ==> r.cacheCreationTokens == s.cacheCreationTokens)
            && (CacheReadKey in usage ==> r.cacheReadTokens == s.cacheReadTokens + usage[CacheReadKey])
            && (CacheReadKey !in usage ==> r.cacheReadTokens == s.cacheReadTokens)
  {
  }

  /** A day's counters, fresh when the day has not been seen. */
  function DayStats(daily: map<string, Stats>, day: string): Stats {
    if day in daily then daily[day] else NoStats
  }

  /** `seenMessages` and `dailyStats` as the loop leaves them. */
  datatype ScanState = ScanState(seen: set<string>, daily: map<string, Stats>)

  const EmptyScan: ScanState := ScanState({}, map[])

  /** A counted record added to its day. */
  function Bump(daily: map<string, Stats>, r: Record, localDate: int -> string): map<string, Stats> {
    var day := DayOf(r, localDate);
    daily[day := AddUsage(DayStats(daily, day), r.usage)]
  }

  /** The body of the inner loop for one line. */
  function Step(st: ScanState, line: Line, cutoff: int, localDate: int -> string): ScanState {
    match line
    case None => st
    case Some(r) =>
      if !Qualifies(r, cutoff) then st
      else
        match CountedId(r)
        case Some(id) =>
          if id in st.seen then st else ScanState(st.seen + {id}, Bump(st.daily, r, localDate))
        case None => ScanState(st.seen, Bump(st.daily, r, localDate))
  }

  /** The lines scanned in order. */
  function ScanLines(st: ScanState, lines: seq<Line>, cutoff: int, localDate: int -> string): ScanState
    decreases |lines|
  {
    if lines == [] then st
    else Step(ScanLines(st, lines[..|lines| - 1], cutoff, localDate), lines[|lines| - 1], cutoff, localDate)
  }

  /** The lines of all files in order; the first file that cannot be read
      aborts the scan with its error. */
  function AllLines(files: seq<Found<FileContent>>): Result<seq<Line>, string>
    decreases |files|
  {
    if files == [] then Success([])
    else
      var before := AllLines(files[..|files| - 1]);
      var last := files[|files| - 1].content;
      if before.Failure? then before
      else if last.Failure? then Failure(last.error)
      else Success(before.value + last.value)
  }

  // ---------------------------------------------------------------- the pipeline

  /** The lines that parsed, in order. */
  function Records(lines: seq<Line>): seq<Record>
    decreases |lines|
  {
    if lines == [] then []
    else
      var last := lines[|lines| - 1];
      Records(lines[..|lines| - 1]) + (if last.Some? then [last.value] else [])
  }

  /** The records that pass the filter chain, in order. */
  function Qualifying(rs: seq<Record>, cutoff: int): (q: seq<Record>)
    ensures forall k :: 0 <= k < |q| ==> Qualifies(q[k], cutoff)
    decreases |rs|
  {
    if rs == [] then []
    else
      var last := rs[|rs| - 1];
      Qualifying(rs[..|rs| - 1], cutoff) + (if Qualifies(last, cutoff) then [last] else [])
  }

  /** The ids of the records that carry one. */
  function Ids(rs: seq<Record>): set<string>
    decreases |rs|
  {
    if rs == [] then {}
    else
      var last := rs[|rs| - 1];
      Ids(rs[..|rs| - 1]) + (if CountedId(last).Some? then {CountedId(last).value} else {})
  }

  /** The records without an id, in order. */
  function IdLess(rs: seq<Record>): seq<Record>
    decreases |rs|
  {
    if rs == [] then []
    else
      var last := rs[|rs| - 1];
      IdLess(rs[..|rs| - 1]) + (if CountedId(last).None? then [last] else [])
  }

  /** Each record with an id whose id has not appeared before it, and every
      record without an id. */
  function FirstOccurrences(rs: seq<Record>): seq<Record>
    decreases |rs|
  {
    if rs == [] then []
    else
      var kept := FirstOccurrences(rs[..|rs| - 1]);
      var last := rs[|rs| - 1];
      if CountedId(last).Some? && CountedId(last).value in Ids(kept) then kept else kept + [last]
  }

  /** The records the scan counts. */
  function Counted(lines: seq<Line>, cutoff: int): seq<Record> {
    FirstOccurrences(Qualifying(Records(lines), cutoff))
  }

  /** The per-day counters of a run of records. */
  function Aggregate(rs: seq<Record>, localDate: int -> string): map<string, Stats>
    decreases |rs|
  {
    if rs == [] then map[]
    else Bump(Aggregate(rs[..|rs| - 1], localDate), rs[|rs| - 1], localDate)
  }

  lemma Snoc<T>(s: seq<T>, x: T)
    ensures (s + [x])[..|s|] == s && (s + [x])[|s|] == x && |s + [x]| == |s| + 1
  {
  }

  /** The pipeline followed one more line. */
  lemma CountedSnoc(init: seq<Line>, last: Line, cutoff: int)
    ensures Counted(init + [last], cutoff) ==
            var c0 := Counted(init, cutoff);
            if last.None? || !Qualifies(last.value, cutoff) then c0
            else if CountedId(last.value).Some? && CountedId(last.value).value in Ids(c0) then c0
            else c0 + [last.value]
  {
    Snoc(init, last);
    var rs0 := Records(init);
    if last.Some? {
      var r := last.value;
      assert Records(init + [last]) == rs0 + [r];
      Snoc(rs0, r);
      var q0 := Qualifying(rs0, cutoff);
      if Qualifies(r, cutoff) {
        assert Qualifying(rs0 + [r], cutoff) == q0 + [r];
        Snoc(q0, r);
      } else {
        assert Qualifying(rs0 + [r], cutoff) == q0;
      }
    } else {
      assert Records(init + [last]) == rs0;
    }
  }

  /** Ids and per-day counters after one more counted record. */
  lemma CountOneMore(c0: seq<Record>, r: Record, localDate: int -> string)
    ensures Ids(c0 + [r]) == Ids(c0) + (if CountedId(r).Some? then {CountedId(r).value} else {})
    ensures Aggregate(c0 + [r], localDate) == Bump(Aggregate(c0, localDate), r, localDate)
  {
    Snoc(c0, r);
  }

  /** The scan is the pipeline: parse, filter, keep first occurrences, then
      add up per day; the seen-set ends as exactly the ids counted. */
  lemma {:induction false} ScanIsPipeline(lines: seq<Line>, cutoff: int, localDate: int -> string)
    ensures ScanLines(EmptyScan, lines, cutoff, localDate) ==
            ScanState(Ids(Counted(lines, cutoff)), Aggregate(Counted(lines, cutoff), localDate))
    decreases |lines|
  {
    if lines != [] {
      var init := lines[..|lines| - 1];
      var last := lines[|lines| - 1];
      assert lines == init + [last];
      ScanIsPipeline(init, cutoff, localDate);
      CountedSnoc(init, last, cutoff);
      var c0 := Counted(init, cutoff);
      if last.Some? {
        CountOneMore(c0, last.value, localDate);
      }
    }
  }

  // ---------------------------------------------------------------- deduplication

  lemma {:induction false} IdsHoldEveryId(rs: seq<Record>, k: nat)
    requires k < |rs| && CountedId(rs[k]).Some?
    ensures CountedId(rs[k]).value in Ids(rs)
    decreases |rs|
  {
    if k < |rs| - 1 {
      var init := rs[..|rs| - 1];
      assert init[k] == rs[k];
      IdsHoldEveryId(init, k);
    }
  }

  /** The seen-set: an id is counted exactly when some qualifying record
      carries it. */
  lemma {:induction false} SeenIsQualifyingIds(q: seq<Record>)
    ensures Ids(FirstOccurrences(q)) == Ids(q)
    decreases |q|
  {
    if q != [] {
      var init := q[..|q| - 1];
      var last := q[|q| - 1];
      SeenIsQualifyingIds(init);
      var kept := FirstOccurrences(init);
      if !(CountedId(last).Some? && CountedId(last).value in Ids(kept)) {
        CountOneMore(kept, last, x => "");
      }
    }
  }

  /** Records without an id are never deduplicated. */
  lemma {:induction false} IdLessAllKept(q: seq<Record>)
    ensures IdLess(FirstOccurrences(q)) == IdLess(q)
    decreases |q|
  {
    if q != [] {
      var init := q[..|q| - 1];
      var last := q[|q| - 1];
      IdLessAllKept(init);
      var kept := FirstOccurrences(init);
      if !(CountedId(last).Some? && CountedId(last).value in Ids(kept)) {
        Snoc(kept, last);
      }
    }
  }

  /** Every counted record is one of the qualifying records. */
  lemma {:induction false} FirstOccurrencesFrom(q: seq<Record>, k: nat)
    requires k < |FirstOccurrences(q)|
    ensures FirstOccurrences(q)[k] in q
    decreases |q|
  {
    var init := q[..|q| - 1];
    var kept := FirstOccurrences(init);
    if k < |kept| {
      FirstOccurrencesFrom(init, k);
      assert kept[k] in init;
    } else {
      assert FirstOccurrences(q)[k] == q[|q| - 1];
    }
  }

  /** No id occurs twice. */
  predicate IdsDistinct(c: seq<Record>) {
    forall i, j :: 0 <= i < j < |c| && CountedId(c[i]).Some? ==> CountedId(c[i]) != CountedId(c[j])
  }

  /** No id is counted twice. */
  lemma {:induction false} CountedIdsDistinct(q: seq<Record>)
    ensures IdsDistinct(FirstOccurrences(q))
    decreases |q|
  {
    if q != [] {
      var init := q[..|q| - 1];
      var last := q[|q| - 1];
      CountedIdsDistinct(init);
      var kept := FirstOccurrences(init);
      if !(CountedId(last).Some? && CountedId(last).value in Ids(kept)) {
        var c := kept + [last];
        assert FirstOccurrences(q) == c;
        forall i, j | 0 <= i < j < |c| && CountedId(c[i]).Some?
          ensures CountedId(c[i]) != CountedId(c[j])
        {
          if j == |kept| {
            assert c[i] == kept[i] && c[j] == last;
            IdsHoldEveryId(kept, i);
          } else {
            assert c[i] == kept[i] && c[j] == kept[j];
          }
        }
      } else {
        assert FirstOccurrences(q) == kept;
      }
    }
  }

  /** The number of counted records: one per distinct id among the qualifying
      records, plus every qualifying record without an id. */
  lemma {:induction false} CountedSize(q: seq<Record>)
    ensures |FirstOccurrences(q)| == |Ids(q)| + |IdLess(q)|
    decreases |q|
  {
    if q != [] {
      var init := q[..|q| - 1];
      var last := q[|q| - 1];
      CountedSize(init);
      SeenIsQualifyingIds(init);
      var kept := FirstOccurrences(init);
      if CountedId(last).Some? {
        var id := CountedId(last).value;
        assert Ids(q) == Ids(init) + {id};
        assert IdLess(q) == IdLess(init);
        if id in Ids(init) {
          assert FirstOccurrences(q) == kept;
          assert Ids(q) == Ids(init);
        } else {
          assert FirstOccurrences(q) == kept + [last];
          assert |Ids(q)| == |Ids(init)| + 1;
        }
      } else {
        assert FirstOccurrences(q) == kept + [last];
        assert Ids(q) == Ids(init);
        assert IdLess(q) == IdLess(init) + [last];
      }
    }
  }

  /** The scan's filtering and deduplication, stated on the lines: every
      counted record parsed and qualifies, no id is counted twice, the
      seen-set is the ids of the qualifying records, and the count is the
      distinct ids plus the id-less qualifying records. */
  lemma CountedRecords(lines: seq<Line>, cutoff: int)
    ensures var c := Counted(lines, cutoff);
            && (forall k :: 0 <= k < |c| ==> c[k] in Records(lines) && Qualifies(c[k], cutoff))
            && IdsDistinct(c)
            && Ids(c) == Ids(Qualifying(Records(lines), cutoff))
            && |c| == |Ids(Qualifying(Records(lines), cutoff))| + |IdLess(Qualifying(Records(lines), cutoff))|
  {
    var rs := Records(lines);
    var q := Qualifying(rs, cutoff);
    var c := FirstOccurrences(q);
    forall k | 0 <= k < |c|
      ensures c[k] in rs && Qualifies(c[k], cutoff)
    {
      FirstOccurrencesFrom(q, k);
      QualifyingFrom(rs, cutoff, c[k]);
    }
    CountedIdsDistinct(q);
    SeenIsQualifyingIds(q);
    CountedSize(q);
  }

  lemma {:induction false} QualifyingFrom(rs: seq<Record>, cutoff: int, r: Record)
    requires r in Qualifying(rs, cutoff)
    ensures r in rs && Qualifies(r, cutoff)
    decreases |rs|
  {
    var init := rs[..|rs| - 1];
    if r in Qualifying(init, cutoff) {
      QualifyingFrom(init, cutoff, r);
    }
  }

  // ---------------------------------------------------------------- aggregation

  /** The days the records fall on. */
  function Days(rs: seq<Record>, localDate: int -> string): set<string>
    decreases |rs|
  {
    if rs == [] then {} else Days(rs[..|rs| - 1], localDate) + {DayOf(rs[|rs| - 1], localDate)}
  }

  /** The records that fall on `day`, in order. */
  function OnDay(rs: seq<Record>, day: string, localDate: int -> string): seq<Record>
    decreases |rs|
  {
    if rs == [] then []
    else
      var last := rs[|rs| - 1];
      OnDay(rs[..|rs| - 1], day, localDate) + (if DayOf(last, localDate) == day then [last] else [])
  }

  /** A usage field summed over records, a missing field counting 0. */
  function SumOf(rs: seq<Record>, key: string): nat
    decreases |rs|
  {
    if rs == [] then 0 else SumOf(rs[..|rs| - 1], key) + Field(rs[|rs| - 1].usage, key)
  }

  /** The counters that a run of records adds up to. */
  function Totals(rs: seq<Record>): Stats {
    Stats(SumOf(rs, InputTokensKey), SumOf(rs, OutputTokensKey), SumOf(rs, CacheCreationKey), SumOf(rs, CacheReadKey), |rs|)
  }

  /** A day has counters exactly when some counted record falls on it. */
  lemma {:induction false} AggregateKeysAreDays(rs: seq<Record>, localDate: int -> string)
    ensures Aggregate(rs, localDate).Keys == Days(rs, localDate)
    decreases |rs|
  {
    if rs != [] {
      AggregateKeysAreDays(rs[..|rs| - 1], localDate);
    }
  }

  /** A day's counters are the sums over that day's records, `messageCount`
      being their number. */
  lemma {:induction false} AggregateIsDailySums(rs: seq<Record>, localDate: int -> string)
    ensures Aggregate(rs, localDate).Keys == Days(rs, localDate)
    ensures forall day :: day in Aggregate(rs, localDate) ==>
              Aggregate(rs, localDate)[day] == Totals(OnDay(rs, day, localDate))
    decreases |rs|
  {
    AggregateKeysAreDays(rs, localDate);
    if rs != [] {
      AggregateIsDailySums(rs[..|rs| - 1], localDate);
      forall day | day in Aggregate(rs, localDate)
        ensures Aggregate(rs, localDate)[day] == Totals(OnDay(rs, day, localDate))
      {
        DaySumsOneMore(rs, rs[..|rs| - 1], day, localDate);
      }
    }
  }

  /** One more record changes only its own day, by its own usage. */
  lemma DaySumsOneMore(rs: seq<Record>, init: seq<Record>, day: string, localDate: int -> string)
    requires rs != [] && init == rs[..|rs| - 1]
    requires Aggregate(init, localDate).Keys == Days(init, localDate)
    requires forall d :: d in Aggregate(init, localDate) ==> Aggregate(init, localDate)[d] == Totals(OnDay(init, d, localDate))
    requires day in Aggregate(rs, localDate)
    ensures Aggregate(rs, localDate)[day] == Totals(OnDay(rs, day, localDate))
  {
    var last := rs[|rs| - 1];
    var agg0 := Aggregate(init, localDate);
    var on0 := OnDay(init, day, localDate);
    if day == DayOf(last, localDate) {
      if day !in agg0 {
        NotOnAnyDay(init, day, localDate);
      }
      assert DayStats(agg0, day) == Totals(on0);
      TotalsSnoc(on0, last);
    } else {
      assert OnDay(rs, day, localDate) == on0 + [];
      NoneAppended(on0);
    }
  }

  lemma NoneAppended<T>(s: seq<T>)
    ensures s + [] == s
  {
  }

  /** One more record adds its usage to the totals. */
  lemma TotalsSnoc(rs: seq<Record>, x: Record)
    ensures Totals(rs + [x]) == AddUsage(Totals(rs), x.usage)
  {
    Snoc(rs, x);
  }

  lemma {:induction false} NotOnAnyDay(rs: seq<Record>, day: string, localDate: int -> string)
    requires day !in Days(rs, localDate)
    ensures OnDay(rs, day, localDate) == []
    decreases |rs|
  {
    if rs != [] {
      NotOnAnyDay(rs[..|rs| - 1], day, localDate);
    }
  }

  // ---------------------------------------------------------------- the loops

  lemma PrefixSnoc<T>(before: seq<T>, s: seq<T>, j: nat)
    requires j < |s|
    ensures before + s[..j + 1] == (before + s[..j]) + [s[j]]
  {
    assert s[..j + 1] == s[..j] + [s[j]];
  }

  /** Scanning one more line is one more step. */
  lemma ScanLinesSnoc(lines: seq<Line>, x: Line, cutoff: int, localDate: int -> string)
    ensures ScanLines(EmptyScan, lines + [x], cutoff, localDate) == Step(ScanLines(EmptyScan, lines, cutoff, localDate), x, cutoff, localDate)
  {
    Snoc(lines, x);
  }

  /** Once some first file cannot be read, reading all of them fails with
      that file's error. */
  lemma {:induction false} ReadFailureAborts(files: seq<Found<FileContent>>, i: nat)
    requires i <= |files| && AllLines(files[..i]).Failure?
    ensures AllLines(files) == AllLines(files[..i])
    decreases |files|
  {
    if i == |files| {
      assert files[..i] == files;
    } else {
      var init := files[..|files| - 1];
      assert init[..i] == files[..i];
      ReadFailureAborts(init, i);
    }
  }

  /** The nested loops of `scanUsageData` over the files `findJsonlFiles`
      returned: each file read in turn, each of its lines put through the
      filter chain, `seenMessages` and `dailyStats` updated in place. The
      result is the scan of all the lines, or the first read error. */
  method ScanFiles(files: seq<Found<FileContent>>, cutoff: int, localDate: int -> string)
    returns (r: Result<ScanState, string>)
    ensures AllLines(files).Failure? ==> r == Failure(AllLines(files).error)
    ensures AllLines(files).Success? ==> r == Success(ScanLines(EmptyScan, AllLines(files).value, cutoff, localDate))
  {
    var seen: set<string> := {};
    var daily: map<string, Stats> := map[];
    for i := 0 to |files|
      invariant AllLines(files[..i]).Success?
      invariant ScanState(seen, daily) == ScanLines(EmptyScan, AllLines(files[..i]).value, cutoff, localDate)
    {
      assert files[..i + 1][..i] == files[..i];
      var content := files[i].content;
      if content.Failure? {
        ReadFailureAborts(files, i + 1);
        return Failure(content.error);
      }
      var before := AllLines(files[..i]).value;
      var lines := content.value;
      assert before + lines[..0] == before;
      for j := 0 to |lines|
        invariant ScanState(seen, daily) == ScanLines(EmptyScan, before + lines[..j], cutoff, localDate)
      {
        PrefixSnoc(before, lines, j);
        ScanLinesSnoc(before + lines[..j], lines[j], cutoff, localDate);
        match lines[j] {
          case None =>
          case Some(entry) =>
            if entry.recordType == Some(AssistantType) && entry.timestamp.Some? {
              var msgTime := entry.timestamp.value;
              if !(msgTime.At? && msgTime.ms < cutoff) {
                var dateStr := DayOf(entry, localDate);
                var msgId := CountedId(entry);
                if |entry.usage| > 0 && !(msgId.Some? && msgId.value in seen) {
                  if msgId.Some? {
                    seen := seen + {msgId.value};
                  }
                  daily := daily[dateStr := AddUsage(DayStats(daily, dateStr), entry.usage)];
                }
              }
            }
        }
      }
      assert lines[..|lines|] == lines;
      assert AllLines(files[..i + 1]) == Success(before + lines);
    }
    assert files[..|files|] == files;
    return Success(ScanState(seen, daily));
  }
}
