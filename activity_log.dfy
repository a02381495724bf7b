/** The in-memory activity log that `addLog` appends to and `getLogs`
    returns: at most 1000 entries, the oldest evicted first. */
module ActivityLog {
  const MaxLogs: nat := 1000

  /** The levels the wrapper logs at. */
  datatype Level = InfoLog | WarningLog | ErrorLog | SuccessLog

  /** The string `addLog` stores in an entry's `level` field. */
  function LevelName(l: Level): string {
    match l
    case InfoLog => "info"
    case WarningLog => "warning"
    case ErrorLog => "error"
    case SuccessLog => "success"
  }

  /** Each level is stored under its own name. */
  lemma LevelNamesDistinct(a: Level, b: Level)
    ensures LevelName(a) == LevelName(b) ==> a == b
  {
  }

  /** `timestamp` is the clock reading in milliseconds that `toISOString`
      would format. */
  datatype LogEntry = LogEntry(timestamp: int, level: Level, message: string)

  /** The last `n` elements of `s` (all of `s` when it is shorter). */
  function LastN<T>(s: seq<T>, n: nat): (r: seq<T>)
    ensures |r| == if |s| < n then |s| else n
  {
    if |s| <= n then s else s[|s| - n..]
  }

  /** One `addLog`: push the entry, then drop the oldest one if the log has
      grown past the cap. */
  function Append(logs: seq<LogEntry>, e: LogEntry): (r: seq<LogEntry>)
    ensures |r| == if |logs| + 1 > MaxLogs then |logs| else |logs| + 1
    ensures |r| >= 1 && r[|r| - 1] == e
    ensures r == (logs + [e])[|logs| + 1 - |r|..]
  {
    var pushed := logs + [e];
    if |pushed| > MaxLogs then pushed[1..] else pushed
  }

  /** The log stays within its cap. */
  lemma AppendBounded(logs: seq<LogEntry>, e: LogEntry)
    requires |logs| <= MaxLogs
    ensures |Append(logs, e)| <= MaxLogs
  {
  }

  /** Eviction happens exactly when the log is full, and then only the single
      oldest entry goes. */
  lemma AppendEvictsOnlyWhenFull(logs: seq<LogEntry>, e: LogEntry)
    requires |logs| <= MaxLogs
    ensures Append(logs, e) == logs + [e] <==> |logs| < MaxLogs
    ensures |logs| == MaxLogs ==> Append(logs, e) == logs[1..] + [e]
  {
    if |logs| == MaxLogs {
      assert (logs + [e])[1..] == logs[1..] + [e];
      assert |Append(logs, e)| != |logs + [e]|;
    }
  }

  /** Several `addLog` calls in order. */
  function AppendAll(logs: seq<LogEntry>, es: seq<LogEntry>): seq<LogEntry>
    decreases |es|
  {
    if es == [] then logs else AppendAll(Append(logs, es[0]), es[1..])
  }

  lemma LastNOfLonger<T>(s: seq<T>, n: nat)
    requires |s| > n
    ensures LastN(s[1..], n) == LastN(s, n)
  {
    assert s[1..][|s| - 1 - n..] == s[|s| - n..];
  }

  /** However many entries are added, the log holds the most recent 1000 of
      everything ever logged, oldest first. */
  lemma {:induction false} AppendAllKeepsNewest(logs: seq<LogEntry>, es: seq<LogEntry>)
    requires |logs| <= MaxLogs
    ensures AppendAll(logs, es) == LastN(logs + es, MaxLogs)
    decreases |es|
  {
    if es == [] {
      assert logs + es == logs;
    } else {
      var pushed := logs + [es[0]];
      var next := Append(logs, es[0]);
      AppendAllKeepsNewest(next, es[1..]);
      var all := logs + es;
      assert all == pushed + es[1..];
      if |pushed| > MaxLogs {
        assert next == pushed[1..];
        assert next + es[1..] == all[1..];
        LastNOfLonger(all, MaxLogs);
      } else {
        assert next == pushed;
      }
    }
  }
}
