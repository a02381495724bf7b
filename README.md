# claude-usage-tracker: the `ClaudeWrapper` engine in Dafny

This project models `ClaudeWrapper`, the object behind the desktop tracker in
`electron/claude-wrapper.js`. The object:

- reads and writes the `key=value` configuration file `~/.claude-usage-config`;
- keeps an in-memory activity log capped at 1000 entries;
- walks `~/.claude/projects` for `.jsonl` conversation logs;
- counts each assistant message once by its id, inside a 90-day window;
- sums token usage per local calendar day and uploads the daily series;
- runs the upload on an interval timer that is restarted whenever the
  configuration is saved.

Modules, leaves first:

| file | module | what it holds |
|---|---|---|
| `wrappers.dfy` | `Wrappers` | `Option`, `Result` |
| `strings.dfy` | `Strings` | `trim`, `split`/`join` on one character, `parseInt(_, 10)`, `String(n)`, the default string order of `sort()` |
| `config_store.dfy` | `ConfigStore` | the file format: reading the lines (`getConfig`), validating and writing the three lines (`saveConfig`) |
| `activity_log.dfy` | `ActivityLog` | the capped log of `addLog` |
| `file_tree.dfy` | `FileTree` | the directory tree and the recursive `walk` of `findJsonlFiles` |
| `usage_scan.dfy` | `UsageScan` | the filter chain, the shared message-id set and the per-day counters of `scanUsageData` |
| `daily_summary.dfy` | `DailySummary` | `Object.keys(dailyStats).sort().map(...)`: the day entries in ascending order |
| `payload.dfy` | `Payload` | the `JSON.stringify` text of the scan result that is uploaded |
| `upload.dfy` | `Upload` | what one upload depends on (`Env`), its errors, the request, and `scanUsageData` as a whole |
| `claude_wrapper.dfy` | `ClaudeWrapper` | the object's state as a value, one function per operation from the state before to the state after, their properties, and the class `ClaudeWrapper` whose methods carry the operations out on fields |

The class `ClaudeWrapper.ClaudeWrapper` has these fields:

- `configFile`: what the file at `configPath` holds; `None` means it is missing or unreadable.
- `logs`
- `uploadCount`
- `lastUploadTime`
- `uploadTimer`: the handle `setInterval` returned.
- `liveTimers`: the interval timers armed and not yet cleared. They stand for the runtime's timer table.
- `nextTimerId`: a counter that tells the timers apart.

Each mutating method promises that its new state is exactly the state-to-state
function of its operation, applied to the old state; for example `State() ==
StopSpec(old(State()), now)`. It also keeps `Valid()`: the log holds at most
1000 entries, and at most one timer is live, namely the one `uploadTimer`
holds.

The world outside the object is one value of type `Upload.Env`:

- the clock reading in milliseconds;
- the home directory;
- the tree under `~/.claude/projects`, with each file's lines already parsed;
- the host name;
- whether writing the temporary payload file fails;
- the server's answer to a request (`Env.respond`): a status code and body,
  or no response;
- whether writing the configuration file fails;
- the local time zone's calendar day of a time.

Behaviour of `electron/claude-wrapper.js` that the model keeps:

- The upload goes to `{serverUrl}/api/claude-usage/upload` (line 292).
- When two records share an id but carry different usage, the first one
  scanned is counted, so totals depend on the order in which `readdir` lists
  the files. The model scans depth-first, in `readdir` order.
- When the email is empty, `startAutoUpload` clears the old timer but leaves
  the old handle in `uploadTimer`. A later `stop()` therefore still logs
  "stopped". The model keeps this.

## Model

| member | source | states |
|---|---|---|
| ActivityLog.LevelNamesDistinct | electron/claude-wrapper.js:133-135 | each level is stored under its own name, so the names tell the levels apart |
| ActivityLog.Append | electron/claude-wrapper.js:133-143 | the new log is the old log plus the entry with at most the oldest entry dropped: the entry is last, the length grows by one unless it would pass 1000, and the result is a suffix of old log + entry, so earlier entries keep their order |
| ActivityLog.AppendBounded | electron/claude-wrapper.js:136-140 | a log of at most 1000 entries stays at most 1000 after an append |
| ActivityLog.AppendEvictsOnlyWhenFull | electron/claude-wrapper.js:138-140 | the append drops nothing exactly when fewer than 1000 entries were held; with 1000 it drops exactly the oldest one |
| ActivityLog.AppendAllKeepsNewest | electron/claude-wrapper.js:133-143 | any run of appends leaves the newest 1000 of all entries ever added, in insertion order |
| ConfigStore.RejectionMessages | electron/claude-wrapper.js:103-111 | each rejected field yields its own text returned as `error`, and the three texts differ |
| ConfigStore.Validate | electron/claude-wrapper.js:103-111 | each of the three rejections happens exactly when its field is bad and the earlier fields are good (blank email, then blank URL, then missing or non-positive interval), and acceptance happens exactly when all three are good |
| ConfigStore.LineKey | electron/claude-wrapper.js:78 | computes the key: the trimmed line up to its first `=` |
| ConfigStore.LineValue | electron/claude-wrapper.js:79 | computes the value: everything after the first `=`, re-joined with `=` and trimmed |
| ConfigStore.ApplyLine | electron/claude-wrapper.js:75-87 | computes one line's effect: a blank or `#` line changes nothing, a known key sets its field (the interval through `parseInt`), any other key changes nothing |
| ConfigStore.ApplyLines | electron/claude-wrapper.js:74-88 | computes the lines applied first to last |
| ConfigStore.ConfigOf | electron/claude-wrapper.js:63-98 | computes what `getConfig` returns: the defaults with the file's lines applied, or the defaults when the file cannot be read |
| ConfigStore.KeyValueOfLine | electron/claude-wrapper.js:75-79 | a line that trims to `k=v` with no `=` in `k` is not skipped, its key is `k` and its value is `v` trimmed, whatever further `=` signs `v` holds |
| ConfigStore.KeyWithoutValue | electron/claude-wrapper.js:78-79 | a line without `=` has the whole trimmed line as key and the empty value |
| ConfigStore.InertLineIgnored | electron/claude-wrapper.js:76-87 | a blank line, a `#` comment or a line with an unknown key can be removed from anywhere in the file without changing the configuration read |
| ConfigStore.LastWriteWins | electron/claude-wrapper.js:74-88 | the configuration holds the value of the last line that sets a key |
| ConfigStore.LineSetsField | electron/claude-wrapper.js:81-87 | a line setting a known key gives that field the line's value |
| ConfigStore.OtherLineKeepsField | electron/claude-wrapper.js:81-87 | a line not setting a key leaves that field as it was |
| ConfigStore.UnsetKeyKeepsDefault | electron/claude-wrapper.js:66-88 | a key no line sets keeps the value it started with, the default |
| ConfigStore.ApplyLinesStep | electron/claude-wrapper.js:74-88 | reading one more line of the file applies that line to the configuration read so far |
| ConfigStore.EmailLineSets | electron/claude-wrapper.js:81-82 | a `user_email` line replaces the email and nothing else |
| ConfigStore.ServerUrlLineSets | electron/claude-wrapper.js:83-84 | a `server_url` line replaces the URL and nothing else |
| ConfigStore.IntervalLineSets | electron/claude-wrapper.js:85-86 | an `upload_interval` line replaces the interval by `parseInt` of its value and nothing else |
| ConfigStore.EmptyLineKeeps | electron/claude-wrapper.js:76 | the empty line after the final newline changes nothing |
| ConfigStore.KeysDistinct | electron/claude-wrapper.js:81-85 | the three keys are different, so the branches of the key test never overlap |
| ConfigStore.AssignmentReads | electron/claude-wrapper.js:75-79 | a written `key=value` line with a trimmed value reads back as that key and that value |
| ConfigStore.EmailLineReads | electron/claude-wrapper.js:115 | the written `user_email` line sets the email to the saved value |
| ConfigStore.ServerUrlLineReads | electron/claude-wrapper.js:116 | the written `server_url` line sets the URL to the saved value |
| ConfigStore.IntervalLineReads | electron/claude-wrapper.js:117 | the written `upload_interval` line parses back to the saved integer |
| ConfigStore.IntToStringNoNewline | electron/claude-wrapper.js:117 | the decimal form of the interval holds no newline |
| ConfigStore.IntToStringTrimmed | electron/claude-wrapper.js:117 | the decimal form of the interval has no white space at either end |
| ConfigStore.ThreeLinesJoin | electron/claude-wrapper.js:119 | `lines.join('\n') + '\n'` is each line followed by a newline |
| ConfigStore.SplitThreeLines | electron/claude-wrapper.js:73 | three newline-free lines, each followed by a newline, split into those lines and one trailing empty line |
| ConfigStore.ConfigTextSplits | electron/claude-wrapper.js:114-119 | the file written splits into exactly the three lines `user_email=`, `server_url=`, `upload_interval=` and a trailing empty line |
| ConfigStore.ReadWrittenLines | electron/claude-wrapper.js:73-88 | reading the three assignment lines and the empty line gives email, URL and interval from their own lines |
| ConfigStore.ConfigLinesRead | electron/claude-wrapper.js:73-88 | reading the three lines written for a configuration gives back that configuration |
| ConfigStore.SavedConfigReadsBack | electron/claude-wrapper.js:114-119 | `getConfig` after `saveConfig` returns the saved values unchanged when they are trimmed and hold no newline |
| Strings.ParseInt | electron/claude-wrapper.js:86 | computes `parseInt(value, 10)`: leading white space skipped, an optional sign, the longest run of digits, `NaN` (`None`) when there is none |
| Strings.TrimStart | electron/claude-wrapper.js:75 | the result is a suffix of the input that starts with no white space |
| Strings.TrimStartRemovesSpace | electron/claude-wrapper.js:75 | what is removed from the front is white space |
| Strings.TrimEnd | electron/claude-wrapper.js:75 | the result is a prefix of the input that ends with no white space |
| Strings.TrimEndRemovesSpace | electron/claude-wrapper.js:75 | what is removed from the end is white space |
| Strings.Trim | electron/claude-wrapper.js:79 | the result has no white space at either end and is no longer than the input |
| Strings.TrimOfTrimmed | electron/claude-wrapper.js:79 | trimming a trimmed value changes nothing |
| Strings.TrimEmptyIffBlank | electron/claude-wrapper.js:76 | `line.trim()` is empty exactly when every character is white space |
| Strings.IndexOf | electron/claude-wrapper.js:78 | the index found holds the character and no earlier index does |
| Strings.IndexOfIs | electron/claude-wrapper.js:78 | a position holding the character with none before it is the index found |
| Strings.Split | electron/claude-wrapper.js:73 | there is at least one piece and no piece contains the separator |
| Strings.JoinSplit | electron/claude-wrapper.js:78-79 | joining the pieces of a split with the same separator gives back the text |
| Strings.SplitAtFirst | electron/claude-wrapper.js:78 | the first piece of a split is the text before the first separator |
| Strings.EndsWithConcat | electron/claude-wrapper.js:256 | a suffix of the last part is a suffix of the whole path |
| Strings.NatToString | electron/claude-wrapper.js:117 | the decimal form of a natural number is a non-empty run of digits |
| Strings.NatToStringValue | electron/claude-wrapper.js:117 | the decimal form reads back as the number |
| Strings.LeadingDigits | electron/claude-wrapper.js:86 | the result is the longest prefix made of digits |
| Strings.ParseIntOfIntToString | electron/claude-wrapper.js:86 | `parseInt(String(n), 10)` is `n` for every integer |
| Strings.LexLessIrreflexive | electron/claude-wrapper.js:222 | no date sorts before itself |
| Strings.LexLessAsymmetric | electron/claude-wrapper.js:222 | two dates are never each before the other |
| Strings.LexLessTransitive | electron/claude-wrapper.js:222 | the sort order is transitive |
| Strings.LexLessTotal | electron/claude-wrapper.js:222 | of two different dates one sorts first |
| FileTree.WalkEntries | electron/claude-wrapper.js:248-260 | computes `walk` over a directory's entries in order: the `.jsonl` files kept, directories entered, and the first unreadable directory's error |
| FileTree.FindJsonl | electron/claude-wrapper.js:245-264 | computes `findJsonlFiles(dir)`: the walk from the top directory, which fails when that one cannot be read |
| FileTree.JsonlOnly | electron/claude-wrapper.js:256 | every path kept ends with `.jsonl` |
| FileTree.JoinPathEndsWith | electron/claude-wrapper.js:252-256 | the joined path ends with `.jsonl` exactly when the entry's name does |
| FileTree.JsonlOnlyConcat | electron/claude-wrapper.js:251-259 | the filter distributes over the entries of a directory taken in order |
| FileTree.RegularFilesConcat | electron/claude-wrapper.js:251-259 | the depth-first file list of a directory is the lists of its entries in order |
| FileTree.AllReadableConcat | electron/claude-wrapper.js:249-255 | a run of entries is readable throughout exactly when each part is |
| FileTree.WalkFindsJsonlFiles | electron/claude-wrapper.js:245-264 | the walk succeeds exactly when every directory in the tree can be read, and then returns exactly the regular files ending in `.jsonl`, in depth-first order |
| FileTree.WalkFailureAborts | electron/claude-wrapper.js:249-255 | once one directory cannot be read, the whole walk fails with that same error |
| FileTree.Walk | electron/claude-wrapper.js:248-260 | the loop over the entries, recursing into directories, appends to `results` exactly what the walk finds, or fails as it does |
| UsageScan.Qualifies | electron/claude-wrapper.js:179-197 | computes the filter chain: assistant type, a timestamp, not before the cutoff, a non-empty usage |
| UsageScan.Step | electron/claude-wrapper.js:175-217 | computes one line's iteration: an unparsed or filtered-out line and an id already seen change nothing; otherwise the id is added to the seen-set and the record to its day |
| UsageScan.ScanLines | electron/claude-wrapper.js:175-218 | computes the lines scanned in order |
| UsageScan.FirstOccurrences | electron/claude-wrapper.js:198-200 | computes the reference deduplication: each record whose id was not kept before, and every record without an id |
| UsageScan.Aggregate | electron/claude-wrapper.js:202-216 | computes the reference per-day map: each record added to its own day |
| UsageScan.AddUsage | electron/claude-wrapper.js:212-216 | a record counted raises the day's message count by exactly one |
| UsageScan.AddUsageFields | electron/claude-wrapper.js:212-215 | each token counter grows by the usage field of that name, and a missing field adds 0 |
| UsageScan.Qualifying | electron/claude-wrapper.js:179-197 | every record kept passes the whole filter chain: assistant type, a timestamp, not before the cutoff, a non-empty usage |
| UsageScan.QualifyingFrom | electron/claude-wrapper.js:179-197 | every record kept comes from the scanned lines and passes the filters |
| UsageScan.CountedSnoc | electron/claude-wrapper.js:175-217 | one more line adds its record to those counted exactly when the line parsed, the record passes the filters, and its id is absent or not seen yet; an unparsed line changes nothing |
| UsageScan.ScanIsPipeline | electron/claude-wrapper.js:165-217 | the loop's seen-set is exactly the ids of the records counted, and its per-day map is the aggregate of those records, so an id enters the seen-set only when its record is counted |
| UsageScan.IdsHoldEveryId | electron/claude-wrapper.js:198-200 | the id of every counted record with an id is in the seen-set |
| UsageScan.SeenIsQualifyingIds | electron/claude-wrapper.js:198-200 | the counted records carry exactly the ids of all qualifying records |
| UsageScan.IdLessAllKept | electron/claude-wrapper.js:198-200 | records without an id, or with an empty one, are never deduplicated |
| UsageScan.FirstOccurrencesFrom | electron/claude-wrapper.js:198-200 | every counted record is one of the qualifying records |
| UsageScan.CountedIdsDistinct | electron/claude-wrapper.js:198-200 | no id is counted twice across the whole scan |
| UsageScan.CountedSize | electron/claude-wrapper.js:198-200 | the number counted is the number of distinct ids plus the number of id-less qualifying records |
| UsageScan.CountedRecords | electron/claude-wrapper.js:175-217 | the records counted come from the lines, pass the filters, carry distinct ids (all the qualifying ids), and number distinct ids plus id-less records |
| UsageScan.AggregateKeysAreDays | electron/claude-wrapper.js:202-210 | the days in the map are exactly the days of the counted records |
| UsageScan.AggregateIsDailySums | electron/claude-wrapper.js:202-216 | each day's counters are the sums over exactly the counted records of that day |
| UsageScan.DaySumsOneMore | electron/claude-wrapper.js:212-216 | adding one record keeps every day's counters equal to the sums over its records |
| UsageScan.TotalsSnoc | electron/claude-wrapper.js:212-216 | one more record of a day adds its usage to that day's sums |
| UsageScan.NotOnAnyDay | electron/claude-wrapper.js:202 | a day no counted record falls on has no records |
| UsageScan.ScanLinesSnoc | electron/claude-wrapper.js:175 | the scan of one more line is one more step of the loop |
| UsageScan.ReadFailureAborts | electron/claude-wrapper.js:171-172 | a file that cannot be read aborts the scan with that file's error |
| UsageScan.ScanFiles | electron/claude-wrapper.js:171-219 | the nested loops over files and lines leave the seen-set and per-day map the scan specifies, or fail with the first unreadable file's error |
| DailySummary.SortedKeys | electron/claude-wrapper.js:221-222 | the dates come out strictly ascending, each key exactly once |
| DailySummary.LeastExists | electron/claude-wrapper.js:222 | a non-empty set of dates has a first one |
| DailySummary.LeastUnique | electron/claude-wrapper.js:222 | the first date is unique |
| DailySummary.ConsAscending | electron/claude-wrapper.js:222 | a date before all the others can go in front of an ascending list |
| DailySummary.DayEntry | electron/claude-wrapper.js:224-239 | an entry keeps its date and message count, and `totalTokens` is the sum of its four counters |
| DailySummary.Entries | electron/claude-wrapper.js:223-240 | one entry per date, in the same order, each built from that date's counters |
| DailySummary.DatesOf | electron/claude-wrapper.js:232 | the dates of the entries, position by position |
| DailySummary.Summary | electron/claude-wrapper.js:221-240 | one entry per day of the map, dates strictly ascending with no duplicates, each entry built from its own day's counters |
| DailySummary.OccursOnce | electron/claude-wrapper.js:238 | a date in a duplicate-free list occurs once |
| DailySummary.NeverOccurs | electron/claude-wrapper.js:238 | a date not in a list occurs nowhere |
| DailySummary.DayCountsOneMore | electron/claude-wrapper.js:238 | one more record adds the number of times its day is listed |
| DailySummary.DaysPartitionRecords | electron/claude-wrapper.js:238 | counted by the days of a duplicate-free list of all their days, every record is counted exactly once |
| DailySummary.ZeroCounts | electron/claude-wrapper.js:238 | no records count nothing on any day |
| DailySummary.RequestTotalIsDayCounts | electron/claude-wrapper.js:238 | the request counts of the entries add up to the records counted by their dates |
| DailySummary.AscendingNoDuplicates | electron/claude-wrapper.js:222 | an ascending list of dates has no duplicates |
| DailySummary.SummaryCountsEveryRecord | electron/claude-wrapper.js:202-240 | the request counts of all days add up to the number of records counted |
| Payload.EntryText | electron/claude-wrapper.js:231-239 | computes the JSON object of one day, with its seven members in the source's order |
| Payload.PayloadText | electron/claude-wrapper.js:276 | computes `JSON.stringify({ daily })` |
| Payload.EscapeChar | electron/claude-wrapper.js:276 | every character is written as at least one character |
| Payload.Escape | electron/claude-wrapper.js:276 | escaping never shortens a string |
| Payload.EntryTexts | electron/claude-wrapper.js:276 | one JSON object per day |
| Payload.PayloadNeverTooSmall | electron/claude-wrapper.js:276-280 | the payload is at least the 12 characters of `{"daily":[]}`, so the size floor of 10 never rejects a scan |
| Payload.UnescapeControl | electron/claude-wrapper.js:276 | a control character written as `\u00xx` reads back as itself |
| Payload.UnescapeShort | electron/claude-wrapper.js:276 | a character with a two-character escape reads back as itself |
| Payload.UnescapePlain | electron/claude-wrapper.js:276 | a character written as itself reads back as itself |
| Payload.UnescapeChar | electron/claude-wrapper.js:276 | every escaped character reads back as itself, whatever follows |
| Payload.UnescapeEscape | electron/claude-wrapper.js:276 | reading an escaped string back gives the string |
| Upload.RequestFor | electron/claude-wrapper.js:286-294 | computes the request: the form fields `file`, `hostname`, `timestamp` and `userEmail`, the upload URL and the protocol |
| Upload.RequestForCarries | electron/claude-wrapper.js:286-294 | the URL is the server URL followed by `/api/claude-usage/upload`, TLS is chosen exactly for an `https:` scheme, the form carries the payload, the host name and the email, and the timestamp field parses back to the time in whole seconds |
| Upload.ErrorMessage | electron/claude-wrapper.js:266-329 | computes the `message` of each error the upload throws: the fixed texts of lines 162, 270 and 279, the reason of a failed read, write or request, and `HTTP <status>: <body>` (line 315) |
| Upload.Accepted | electron/claude-wrapper.js:309 | computes the success test: status 200 or 201 |
| Upload.ScanSpec | electron/claude-wrapper.js:156-163 | a missing projects directory fails with its own error before anything is scanned |
| Upload.ScanCountsEachRecordOnce | electron/claude-wrapper.js:165-242 | a successful scan's request counts add up to the distinct ids plus the id-less qualifying records, and its days are strictly ascending |
| ClaudeWrapper.Log | electron/claude-wrapper.js:133-143 | computes `addLog` on the state: the entry appended to the log as `Append` specifies, nothing else changed |
| ClaudeWrapper.ReceiveSpec | electron/claude-wrapper.js:282-323 | computes the sending half of the upload: a failed temporary write, no response, or a status other than 200/201 fails and changes nothing; an accepted status counts the upload, records the time and logs the success |
| ClaudeWrapper.UploadWith | electron/claude-wrapper.js:266-329 | computes the upload for a given configuration, scan result and JSON text: the email check, the collecting log, the scan error, the size floor, then the sending half |
| ClaudeWrapper.UploadSpec | electron/claude-wrapper.js:266-329 | computes `uploadUsageData()`: the upload on the configuration read from the file and on the scan of the environment |
| ClaudeWrapper.ScheduleWith | electron/claude-wrapper.js:47-53 | computes one tick: the upload, and one error log with the error's message when it fails |
| ClaudeWrapper.ScheduleSpec | electron/claude-wrapper.js:47-53 | computes `scheduleUpload()` on the configuration read and the scan |
| ClaudeWrapper.ClearTimer | electron/claude-wrapper.js:23-25 | computes `clearInterval(this.uploadTimer)`: a set handle's timer is no longer live, the handle stays |
| ClaudeWrapper.StartWith | electron/claude-wrapper.js:21-45 | computes the start for a given configuration: clear, then warn without an email, or log, tick once and arm a new timer |
| ClaudeWrapper.StartSpec | electron/claude-wrapper.js:21-45 | computes `startAutoUpload()` on the configuration read from the file |
| ClaudeWrapper.StopSpec | electron/claude-wrapper.js:55-61 | computes `stop()`: with a handle, its timer cleared, the handle nulled and the stop logged; without one nothing changes |
| ClaudeWrapper.SaveSpec | electron/claude-wrapper.js:100-130 | computes `saveConfig(config)`: a rejection or a failed write returns its error and changes nothing; otherwise the file is written, the restart logged and the scheduler started again |
| ClaudeWrapper.IntervalMs | electron/claude-wrapper.js:35 | documents `(uploadInterval || 600) * 1000` case by case: the interval in milliseconds, and 600 seconds when it is NaN or 0 |
| ClaudeWrapper.LogKeepsInvariant | electron/claude-wrapper.js:133-143 | logging keeps the log within its cap and the timers as they were, and the entry logged is last |
| ClaudeWrapper.UploadNeedsEmail | electron/claude-wrapper.js:267-271 | with no email the upload fails with its own error and changes nothing: no log entry, no scan result used |
| ClaudeWrapper.UploadWithOutcome | electron/claude-wrapper.js:266-329 | for any configuration and scan result: with no email nothing changes; success adds exactly one to the count, sets the time and appends exactly two entries, the collecting message and then the success with the new count; a failure after the email check appends exactly the collecting message and leaves count and time alone; the file and timers never change |
| ClaudeWrapper.UploadOutcome | electron/claude-wrapper.js:266-329 | the same for `uploadUsageData` as it reads the configuration and scans |
| ClaudeWrapper.SentRequestCarries | electron/claude-wrapper.js:286-294 | the request `uploadUsageData` sends goes to the configured server URL followed by the upload path and carries the JSON of the scan, the host name, the email and the time in whole seconds |
| ClaudeWrapper.UploadStatus | electron/claude-wrapper.js:309-316 | when the server answers the request sent, the upload succeeds exactly when the status is 200 or 201 |
| ClaudeWrapper.UploadRejected | electron/claude-wrapper.js:314-316 | any other status fails with that status and the response body |
| ClaudeWrapper.UploadWithStatus | electron/claude-wrapper.js:308-316 | success exactly for 200 or 201; any other status fails with that status and body, whose message is `HTTP <status>: <body>` |
| ClaudeWrapper.UploadSpecIsWith | electron/claude-wrapper.js:266-276 | `uploadUsageData` is the upload on the configuration read and the scan result |
| ClaudeWrapper.UploadWithKeepsInvariant | electron/claude-wrapper.js:266-329 | an upload keeps the log cap and the timers, for any input |
| ClaudeWrapper.UploadKeepsInvariant | electron/claude-wrapper.js:266-329 | `uploadUsageData` keeps the log cap and the timers |
| ClaudeWrapper.ScheduleLogsFailure | electron/claude-wrapper.js:47-53 | a failed upload leaves exactly one more entry, the error message logged; a successful one adds nothing more |
| ClaudeWrapper.ScheduleWithKeepsTimers | electron/claude-wrapper.js:47-53 | a tick, for any input, changes neither the file nor the timers and keeps the invariant |
| ClaudeWrapper.ScheduleKeepsTimers | electron/claude-wrapper.js:47-53 | `scheduleUpload` changes neither the file nor the timers and keeps the invariant |
| ClaudeWrapper.StartWithArmsOneTimer | electron/claude-wrapper.js:21-45 | the old timer is no longer live; without an email exactly the warning is logged, no timer is armed and the old handle stays; otherwise exactly one new timer with the period from the interval is live and held |
| ClaudeWrapper.StartArmsOneTimer | electron/claude-wrapper.js:21-45 | the same for `startAutoUpload` as it reads the configuration |
| ClaudeWrapper.StartWithTicksOnce | electron/claude-wrapper.js:35-39 | with an email, the log, the counters and the file after starting are those of exactly one tick run after the old timer is cleared and the start message is logged once |
| ClaudeWrapper.StartTicksOnce | electron/claude-wrapper.js:21-39 | the same for `startAutoUpload` as it reads the configuration: one start message, then one `scheduleUpload()` |
| ClaudeWrapper.StartWithKeepsFile | electron/claude-wrapper.js:21-45 | starting never changes the configuration file |
| ClaudeWrapper.StartReadsConfig | electron/claude-wrapper.js:27 | starting acts on the configuration read from the file |
| ClaudeWrapper.StopDisarms | electron/claude-wrapper.js:55-61 | after `stop` no timer is live or held; it logs once when there was a handle, changes nothing when there was none, and a second `stop` is a no-op |
| ClaudeWrapper.SaveRejectedChangesNothing | electron/claude-wrapper.js:100-111 | a rejected configuration or a failed write changes nothing and fails, with the field's error for a rejection |
| ClaudeWrapper.SaveWritesThenStarts | electron/claude-wrapper.js:113-125 | an accepted save writes the file, logs the restart, restarts the scheduler and succeeds |
| ClaudeWrapper.SaveIsStartWith | electron/claude-wrapper.js:119-123 | when the saved email and URL are trimmed and hold no newline, the restart after an accepted save reads back the configuration just saved |
| ClaudeWrapper.SaveWritesConfig | electron/claude-wrapper.js:114-119 | when the saved email and URL are trimmed and hold no newline, an accepted save succeeds, leaves the three-line text in the file, and that file reads back as the saved configuration |
| ClaudeWrapper.SaveArmsTimer | electron/claude-wrapper.js:121-123 | when the saved email and URL are trimmed and hold no newline, after an accepted save exactly one timer is live, the new one, with the saved interval in milliseconds |
| ClaudeWrapper.SaveRestartsWithNewInterval | electron/claude-wrapper.js:100-125 | when the saved email and URL are trimmed and hold no newline, an accepted save succeeds, writes the file that reads back as saved, and leaves exactly one timer live with the new interval |
| ClaudeWrapper.LatestSaveWins | electron/claude-wrapper.js:100-125 | when both saves' emails and URLs are trimmed and hold no newline, after two accepted saves the file reads back as the second and only the second save's timer is live |
| ClaudeWrapper.ClaudeWrapper.constructor | electron/claude-wrapper.js:10-19 | a fresh object with an empty log, zero uploads and no timer, then `startAutoUpload` |
| ClaudeWrapper.ClaudeWrapper.AddLog | electron/claude-wrapper.js:133-143 | returns the entry and leaves the log as `Append` specifies, keeping the cap |
| ClaudeWrapper.ClaudeWrapper.GetLogs | electron/claude-wrapper.js:145-147 | returns the log as held |
| ClaudeWrapper.ClaudeWrapper.GetStatus | electron/claude-wrapper.js:149-154 | returns the upload count and the last upload time |
| ClaudeWrapper.ClaudeWrapper.GetConfig | electron/claude-wrapper.js:63-98 | the loop over the lines returns the configuration the file's lines give, and the defaults when there is no file |
| ClaudeWrapper.ClaudeWrapper.SaveConfig | electron/claude-wrapper.js:100-130 | result and new state are those of the save operation, and the invariant is kept |
| ClaudeWrapper.ClaudeWrapper.WriteConfig | electron/claude-wrapper.js:119-122 | the file holds the three-line text of the configuration and the restart is logged, and the invariant is kept |
| ClaudeWrapper.ClaudeWrapper.StartAutoUpload | electron/claude-wrapper.js:21-45 | the new state is that of the start operation, and the invariant is kept |
| ClaudeWrapper.ClaudeWrapper.ScheduleUpload | electron/claude-wrapper.js:47-53 | the new state is that of one tick, and the invariant is kept |
| ClaudeWrapper.ClaudeWrapper.Stop | electron/claude-wrapper.js:55-61 | the new state is that of `stop`, and the invariant is kept |
| ClaudeWrapper.ClaudeWrapper.FindJsonlFiles | electron/claude-wrapper.js:245-264 | returns what the walk finds, starting from no results |
| ClaudeWrapper.ClaudeWrapper.ScanUsageData | electron/claude-wrapper.js:156-243 | returns the scan result: the missing-directory error, the first read error, or the daily series |
| ClaudeWrapper.ClaudeWrapper.UploadUsageData | electron/claude-wrapper.js:266-329 | result and new state are those of the upload operation, and the invariant is kept |
| ClaudeWrapper.ClaudeWrapper.SendPayload | electron/claude-wrapper.js:282-323 | result and new state are those of the sending half for the request built from the configuration, the JSON text and the environment, and the invariant is kept |

## Left out

- Time: `Date.now()` and `new Date().toISOString()` are one clock reading in
  milliseconds per operation (`Env.now`), and log and upload timestamps are
  those milliseconds, not ISO text. The local calendar day of a time is
  the parameter `localDate`, so time zones are not modelled.
- A timestamp that does not parse is the value `InvalidDate`. It passes the
  cutoff (comparisons with NaN are false) and falls on the day `NaN-NaN-NaN`.
- `JSON.parse` is not modelled: each line arrives as a parsed record or as
  `None` when parsing or handling it throws. Message ids are strings, and
  usage values are natural numbers.
- `JSON.stringify` is modelled for the shape the scan produces. Member names
  are written unescaped, because they are fixed identifiers. Number
  formatting is that of natural numbers.
- `new URL(...)` is reduced to its scheme test, `https:` in any ASCII case. A
  malformed URL and a refused connection are both `Transport.NoResponse`.
  The request is `UploadRequest`: the URL, the protocol and the four form
  fields. The split of the URL into host, port and path, the headers and the
  streaming of the form are left out. The server's answer is `Env.respond`
  applied to that request.
- The temporary file's contents and name are not modelled. Its write failing
  is `Env.tempWrite`, and the unlink in `finally` is ignored. The same goes
  for `console.error`.
- Filesystem errors: a missing projects directory, an unreadable directory
  and an unreadable file are modelled. Every other failure of `fs` is left
  out, and so is `path.join`'s normalisation of `..` and duplicate
  separators: paths are joined with one `/`.
- Concurrency is left out: each `await` runs to completion before the next
  operation. The immediate tick in `startAutoUpload` is modelled as finishing
  inside it, and ticks never overlap.
- Timer firing is left out. `liveTimers` records which `setInterval` timers
  exist, so double arming would be visible, but the ticks they would fire
  later are not modelled. The runtime's clamping of very large or small
  delays is not modelled either.
- `parseInt` on numbers beyond 2^53 loses precision in the source; the
  model's integers are exact. Only integer intervals can be saved, and
  fractional values are not modelled.
- Strings are sequences of Unicode scalar values rather than UTF-16 code
  units. Lengths and the sort order agree with the source only for text in
  the Basic Multilingual Plane.
- The read-back lemmas of a save (`SavedConfigReadsBack`, `SaveIsStartWith`,
  `SaveWritesConfig`, `SaveArmsTimer`, `SaveRestartsWithNewInterval`,
  `LatestSaveWins`) hold for an email and URL that are trimmed and hold no
  newline. `saveConfig` accepts other values too, since line 103 only checks
  that the trimmed email is non-empty, and some do not read back. For
  example, the email `" \nx"` is written as is and reads back empty, so the
  restart only warns and arms no timer. `SaveSpec` and `SaveConfig` model
  every input; only these lemmas are restricted.
- `this.logPath` is assigned but never used, so it is not modelled.
- ClaudeWrapper.ClaudeWrapper.GetLogs: returns the log as a value; the source returns the array itself, through which a caller could change the log.
