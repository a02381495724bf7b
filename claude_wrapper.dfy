/** The `ClaudeWrapper` object: its configuration file, activity log, upload
    counters and upload timer, and the operations on them. Each operation is
    specified by a function from the state before to the state after; the
    class's methods carry them out step by step and promise exactly that
    function's result. */
module ClaudeWrapper {
  import opened Wrappers
  import opened Strings
  import opened ConfigStore
  import opened ActivityLog
  import opened FileTree
  import opened UsageScan
  import opened DailySummary
  import opened Payload
  import opened Upload

  /** An interval timer `setInterval` armed: which one, and its period. */
  datatype Handle = Handle(id: nat, intervalMs: int)

  /** The wrapper's fields as a value. `configFile` is what the file at
      `configPath` holds (`None`: missing or unreadable); `liveTimers` are the
      interval timers armed and not yet cleared, which keep firing ticks;
      `nextTimerId` tells the next timer apart from the earlier ones. */
  datatype WrapperState = WrapperState(
    configFile: Option<string>,
    logs: seq<LogEntry>,
    uploadCount: nat,
    lastUploadTime: Option<int>,
    uploadTimer: Option<Handle>,
    liveTimers: set<Handle>,
    nextTimerId: nat)

  /** The state the constructor builds before it starts the scheduler. */
  function Initial(configFile: Option<string>): WrapperState {
    WrapperState(configFile, [], 0, None, None, {}, 0)
  }

  const CollectingMessage: string := "사용량 데이터 수집 중..."
  const ScheduleFailurePrefix: string := "자동 업로드 실패: "
  const DisabledMessage: string := "사용자 이메일이 설정되지 않아 자동 업로드가 비활성화되었습니다"
  const StoppedMessage: string := "자동 업로드 중지됨"
  const RestartMessage: string := "설정이 변경되어 자동 업로드를 재시작합니다"

  function SuccessMessage(count: nat): string {
    "업로드 성공 (#" + NatToString(count) + ")"
  }

  /** `${config.uploadInterval}`: NaN prints as `NaN`. */
  function IntervalText(v: Option<int>): string {
    match v
    case None => "NaN"
    case Some(n) => IntToString(n)
  }

  function StartedMessage(v: Option<int>): string {
    "자동 업로드 시작 (" + IntervalText(v) + "초 주기)"
  }

  /** `(config.uploadInterval || 600) * 1000`: NaN and 0 fall back to 600
      seconds. */
  function IntervalMs(v: Option<int>): (ms: int)
    ensures v.Some? && v.value != 0 ==> ms == v.value * 1000
    ensures (v.None? || v.value == 0) ==> ms == DefaultUploadInterval * 1000
  {
    (if v.None? || v.value == 0 then DefaultUploadInterval else v.value) * 1000
  }

  // ---------------------------------------------------------------- specification

  /** `addLog(level, message)` at time `now`. */
  function Log(s: WrapperState, now: int, level: Level, message: string): WrapperState {
    s.(logs := Append(s.logs, LogEntry(now, level, message)))
  }

  /** The payload is written to the temporary file, then the request
      `RequestFor` builds from the configuration, the payload, the host name
      and the clock is sent; the server's answer to that request decides. */
  function ReceiveSpec(s: WrapperState, env: Env, config: Config, json: string, daily: seq<DailyAggregate>): (WrapperState, Result<seq<DailyAggregate>, UploadError>) {
    match env.tempWrite
    case Some(reason) => (s, Failure(TempFileFailed(reason)))
    case None =>
      match env.respond(RequestFor(config, json, env.hostname, env.now))
      case NoResponse(reason) => (s, Failure(RequestFailed(reason)))
      case Responds(status, body) =>
        if Accepted(status) then
          var counted := s.(uploadCount := s.uploadCount + 1, lastUploadTime := Some(env.now));
          (Log(counted, env.now, SuccessLog, SuccessMessage(counted.uploadCount)), Success(daily))
        else (s, Failure(HttpError(status, body)))
  }

  /** `uploadUsageData()` once the configuration has been read, the scan
      run and its result turned into the JSON text `json`: the new state, and
      the scan result or the error it throws. */
  function UploadWith(s: WrapperState, env: Env, config: Config, scan: Result<seq<DailyAggregate>, UploadError>, json: string)
    : (WrapperState, Result<seq<DailyAggregate>, UploadError>)
  {
    if config.userEmail == "" then (s, Failure(MissingEmail))
    else
      var collecting := Log(s, env.now, InfoLog, CollectingMessage);
      match scan
      case Failure(e) => (collecting, Failure(e))
      case Success(daily) =>
        if |json| < 10 then (collecting, Failure(PayloadTooSmall))
        else ReceiveSpec(collecting, env, config, json, daily)
  }

  /** The JSON text of a successful scan. */
  function JsonOf(scan: Result<seq<DailyAggregate>, UploadError>): string {
    if scan.Success? then PayloadText(scan.value) else ""
  }

  /** `uploadUsageData()`. */
  function UploadSpec(s: WrapperState, env: Env): (WrapperState, Result<seq<DailyAggregate>, UploadError>) {
    UploadWith(s, env, ConfigOf(s.configFile), ScanSpec(env), JsonOf(ScanSpec(env)))
  }

  /** `scheduleUpload()`: an upload whose error becomes one error log. */
  function ScheduleWith(s: WrapperState, env: Env, config: Config, scan: Result<seq<DailyAggregate>, UploadError>, json: string): WrapperState {
    var outcome := UploadWith(s, env, config, scan, json);
    if outcome.1.Failure? then Log(outcome.0, env.now, ErrorLog, ScheduleFailurePrefix + ErrorMessage(outcome.1.error))
    else outcome.0
  }

  function ScheduleSpec(s: WrapperState, env: Env): WrapperState {
    ScheduleWith(s, env, ConfigOf(s.configFile), ScanSpec(env), JsonOf(ScanSpec(env)))
  }

  /** `startAutoUpload()`: clear the old timer; without an email, warn and
      stop there (the old handle stays in `uploadTimer`); otherwise log, run
      one tick, and arm a new timer. */
  /** `clearInterval(this.uploadTimer)` when a handle is set: its timer stops
      firing, the handle itself stays. */
  function ClearTimer(s: WrapperState): WrapperState {
    if s.uploadTimer.Some? then s.(liveTimers := s.liveTimers - {s.uploadTimer.value}) else s
  }

  function StartWith(s: WrapperState, env: Env, config: Config, scan: Result<seq<DailyAggregate>, UploadError>, json: string): WrapperState {
    var cleared := ClearTimer(s);
    if config.userEmail == "" then Log(cleared, env.now, WarningLog, DisabledMessage)
    else
      var started := Log(cleared, env.now, InfoLog, StartedMessage(config.uploadInterval));
      var ticked := ScheduleWith(started, env, config, scan, json);
      var h := Handle(ticked.nextTimerId, IntervalMs(config.uploadInterval));
      ticked.(uploadTimer := Some(h), liveTimers := ticked.liveTimers + {h}, nextTimerId := ticked.nextTimerId + 1)
  }

  function StartSpec(s: WrapperState, env: Env): WrapperState {
    StartWith(s, env, ConfigOf(s.configFile), ScanSpec(env), JsonOf(ScanSpec(env)))
  }

  /** `stop()`: only a handle that is set is cleared, nulled and logged. */
  function StopSpec(s: WrapperState, now: int): WrapperState {
    if s.uploadTimer.Some? then
      Log(s.(uploadTimer := None, liveTimers := s.liveTimers - {s.uploadTimer.value}), now, InfoLog, StoppedMessage)
    else s
  }

  /** `saveConfig(config)`: validate, write the file, log, restart the
      scheduler; a rejection or a failed write changes nothing. */
  function SaveSpec(s: WrapperState, c: Config, env: Env): (WrapperState, Result<(), SaveError>) {
    match Validate(c)
    case Some(e) => (s, Failure(e))
    case None =>
      match env.configWrite
      case Some(reason) => (s, Failure(WriteFailed(reason)))
      case None =>
        var written := s.(configFile := Some(ConfigText(c)));
        (StartSpec(Log(written, env.now, InfoLog, RestartMessage), env), Success(()))
  }

  // ---------------------------------------------------------------- properties

  /** At most one timer is live, and it is the one `uploadTimer` holds; a
      handle is older than the next timer to be armed. */
  predicate TimersConsistent(s: WrapperState) {
    && s.liveTimers <= (if s.uploadTimer.Some? then {s.uploadTimer.value} else {})
    && (s.uploadTimer.Some? ==> s.uploadTimer.value.id < s.nextTimerId)
  }

  /** What every operation keeps: the log within its cap and the timers
      consistent. */
  predicate Invariant(s: WrapperState) {
    |s.logs| <= MaxLogs && TimersConsistent(s)
  }

  lemma LogKeepsInvariant(s: WrapperState, now: int, level: Level, message: string)
    requires Invariant(s)
    ensures Invariant(Log(s, now, level, message))
    ensures Log(s, now, level, message).logs[|Log(s, now, level, message).logs| - 1] == LogEntry(now, level, message)
  {
    AppendBounded(s.logs, LogEntry(now, level, message));
  }

  /** An email that is not set fails the upload before anything happens: no
      log, no scan, no change at all. */
  /** The request `uploadUsageData` sends from state `s`: built from the
      configuration it reads and the JSON text of the scan. */
  function SentRequest(s: WrapperState, env: Env): UploadRequest {
    RequestFor(ConfigOf(s.configFile), JsonOf(ScanSpec(env)), env.hostname, env.now)
  }

  /** The request sent goes to `{serverUrl}/api/claude-usage/upload` over TLS
      exactly for an `https:` URL, and its form carries the scan's JSON text
      as the file, the host name, the time in whole seconds and the email. */
  lemma SentRequestCarries(s: WrapperState, env: Env)
    requires ScanSpec(env).Success?
    ensures var req := SentRequest(s, env);
            var config := ConfigOf(s.configFile);
            && req.url == config.serverUrl + UploadPath
            && (req.https <==> IsHttps(req.url))
            && req.file == PayloadText(ScanSpec(env).value)
            && req.hostname == env.hostname
            && ParseInt(req.timestamp) == Some(env.now / 1000)
            && req.userEmail == config.userEmail
  {
    var config := ConfigOf(s.configFile);
    var req := SentRequest(s, env);
    RequestForCarries(config, JsonOf(ScanSpec(env)), env.hostname, env.now);
    UrlOfParts(req.url, config.serverUrl, UploadPath);
  }

  lemma UploadNeedsEmail(s: WrapperState, env: Env)
    requires ConfigOf(s.configFile).userEmail == ""
    ensures UploadSpec(s, env) == (s, Failure(MissingEmail))
  {
  }

  lemma UploadWithOutcome(s: WrapperState, env: Env, config: Config, scan: Result<seq<DailyAggregate>, UploadError>, json: string)
    ensures var (after, r) := UploadWith(s, env, config, scan, json);
            && (config.userEmail == "" ==> after == s && r == Failure(MissingEmail))
            && (r.Success? ==>
                  && after.uploadCount == s.uploadCount + 1
                  && after.lastUploadTime == Some(env.now)
                  && after.logs == Append(Append(s.logs, LogEntry(env.now, InfoLog, CollectingMessage)),
                                          LogEntry(env.now, SuccessLog, SuccessMessage(s.uploadCount + 1))))
            && (r.Failure? ==> after.uploadCount == s.uploadCount && after.lastUploadTime == s.lastUploadTime)
            && (config.userEmail != "" && r.Failure? ==> after.logs == Append(s.logs, LogEntry(env.now, InfoLog, CollectingMessage)))
            && after.configFile == s.configFile
            && after.uploadTimer == s.uploadTimer && after.liveTimers == s.liveTimers && after.nextTimerId == s.nextTimerId
  {
  }

  /** An upload changes the counters exactly when it succeeds: by one, with
      the time of the upload. Without an email nothing changes at all;
      otherwise the collecting entry is logged, and a success adds one more
      entry carrying the new count. Any failure leaves the counters as they
      were. An upload touches neither the configuration file nor the timers. */
  lemma UploadOutcome(s: WrapperState, env: Env)
    ensures var (after, r) := UploadSpec(s, env);
            && (ConfigOf(s.configFile).userEmail == "" ==> after == s && r == Failure(MissingEmail))
            && (r.Success? ==>
                  && after.uploadCount == s.uploadCount + 1
                  && after.lastUploadTime == Some(env.now)
                  && after.logs == Append(Append(s.logs, LogEntry(env.now, InfoLog, CollectingMessage)),
                                          LogEntry(env.now, SuccessLog, SuccessMessage(s.uploadCount + 1))))
            && (r.Failure? ==> after.uploadCount == s.uploadCount && after.lastUploadTime == s.lastUploadTime)
            && (ConfigOf(s.configFile).userEmail != "" && r.Failure? ==> after.logs == Append(s.logs, LogEntry(env.now, InfoLog, CollectingMessage)))
            && after.configFile == s.configFile
            && after.uploadTimer == s.uploadTimer && after.liveTimers == s.liveTimers && after.nextTimerId == s.nextTimerId
  {
    var scan := ScanSpec(env);
    UploadSpecIsWith(s, env, ConfigOf(s.configFile), scan);
    UploadWithOutcome(s, env, ConfigOf(s.configFile), scan, JsonOf(scan));
  }

  /** Only a 200 or 201 response counts as an upload. */
  lemma UploadStatus(s: WrapperState, env: Env, status: int, body: string)
    requires ConfigOf(s.configFile).userEmail != ""
    requires ScanSpec(env).Success?
    requires env.tempWrite.None? && env.respond(SentRequest(s, env)) == Responds(status, body)
    ensures Accepted(status) <==> UploadSpec(s, env).1.Success?
  {
    var scan := ScanSpec(env);
    UploadSpecIsWith(s, env, ConfigOf(s.configFile), scan);
    PayloadNeverTooSmall(scan.value);
    UploadWithStatus(s, env, ConfigOf(s.configFile), scan.value, JsonOf(scan), status, body);
  }

  /** Any other status is the error `HTTP <code>: <body>`. */
  lemma UploadRejected(s: WrapperState, env: Env, status: int, body: string)
    requires ConfigOf(s.configFile).userEmail != ""
    requires ScanSpec(env).Success?
    requires env.tempWrite.None? && env.respond(SentRequest(s, env)) == Responds(status, body) && !Accepted(status)
    ensures UploadSpec(s, env).1 == Failure(HttpError(status, body))
  {
    var scan := ScanSpec(env);
    UploadSpecIsWith(s, env, ConfigOf(s.configFile), scan);
    PayloadNeverTooSmall(scan.value);
    UploadWithStatus(s, env, ConfigOf(s.configFile), scan.value, JsonOf(scan), status, body);
  }

  lemma UploadWithStatus(s: WrapperState, env: Env, config: Config, daily: seq<DailyAggregate>, json: string, status: int, body: string)
    requires config.userEmail != "" && |json| >= 10
    requires env.tempWrite.None? && env.respond(RequestFor(config, json, env.hostname, env.now)) == Responds(status, body)
    ensures Accepted(status) <==> UploadWith(s, env, config, Success(daily), json).1.Success?
    ensures !Accepted(status) ==> UploadWith(s, env, config, Success(daily), json).1 == Failure(HttpError(status, body))
    ensures !Accepted(status) ==>
              ErrorMessage(UploadWith(s, env, config, Success(daily), json).1.error) == "HTTP " + IntToString(status) + ": " + body
  {
  }

  /** A tick never fails: an error becomes exactly one error log after what
      the upload itself logged, and nothing else changes. */
  lemma ScheduleLogsFailure(s: WrapperState, env: Env)
    ensures var (after, r) := UploadSpec(s, env);
            && (r.Failure? ==>
                  ScheduleSpec(s, env) == Log(after, env.now, ErrorLog, ScheduleFailurePrefix + ErrorMessage(r.error)))
            && (r.Success? ==> ScheduleSpec(s, env) == after)
  {
  }

  lemma UploadWithKeepsInvariant(s: WrapperState, env: Env, config: Config, scan: Result<seq<DailyAggregate>, UploadError>, json: string)
    requires Invariant(s)
    ensures Invariant(UploadWith(s, env, config, scan, json).0)
  {
    UploadWithOutcome(s, env, config, scan, json);
    if config.userEmail != "" {
      var collecting := Log(s, env.now, InfoLog, CollectingMessage);
      LogKeepsInvariant(s, env.now, InfoLog, CollectingMessage);
      var answer := env.respond(RequestFor(config, json, env.hostname, env.now));
      if scan.Success? && |json| >= 10 && env.tempWrite.None? && answer.Responds? && Accepted(answer.status) {
        var counted := collecting.(uploadCount := collecting.uploadCount + 1, lastUploadTime := Some(env.now));
        LogKeepsInvariant(counted, env.now, SuccessLog, SuccessMessage(counted.uploadCount));
      }
    }
  }

  /** An upload keeps the invariant. */
  lemma UploadKeepsInvariant(s: WrapperState, env: Env)
    requires Invariant(s)
    ensures Invariant(UploadSpec(s, env).0)
  {
    UploadWithKeepsInvariant(s, env, ConfigOf(s.configFile), ScanSpec(env), JsonOf(ScanSpec(env)));
  }

  lemma UploadSpecIsWith(s: WrapperState, env: Env, config: Config, scan: Result<seq<DailyAggregate>, UploadError>)
    requires config == ConfigOf(s.configFile) && scan == ScanSpec(env)
    ensures UploadSpec(s, env) == UploadWith(s, env, config, scan, JsonOf(scan))
  {
  }

  lemma ScheduleWithKeepsTimers(s: WrapperState, env: Env, config: Config, scan: Result<seq<DailyAggregate>, UploadError>, json: string)
    requires Invariant(s)
    ensures var t := ScheduleWith(s, env, config, scan, json);
            && Invariant(t)
            && t.configFile == s.configFile && t.uploadTimer == s.uploadTimer
            && t.liveTimers == s.liveTimers && t.nextTimerId == s.nextTimerId
  {
    UploadWithOutcome(s, env, config, scan, json);
    UploadWithKeepsInvariant(s, env, config, scan, json);
    var outcome := UploadWith(s, env, config, scan, json);
    if outcome.1.Failure? {
      LogKeepsInvariant(outcome.0, env.now, ErrorLog, ScheduleFailurePrefix + ErrorMessage(outcome.1.error));
    }
  }

  /** A tick keeps the invariant and leaves the configuration and the timers alone. */
  lemma ScheduleKeepsTimers(s: WrapperState, env: Env)
    requires Invariant(s)
    ensures var t := ScheduleSpec(s, env);
            && Invariant(t)
            && t.configFile == s.configFile && t.uploadTimer == s.uploadTimer
            && t.liveTimers == s.liveTimers && t.nextTimerId == s.nextTimerId
  {
    ScheduleWithKeepsTimers(s, env, ConfigOf(s.configFile), ScanSpec(env), JsonOf(ScanSpec(env)));
  }

  lemma StartWithArmsOneTimer(s: WrapperState, env: Env, config: Config, scan: Result<seq<DailyAggregate>, UploadError>, json: string)
    requires Invariant(s)
    ensures Invariant(StartWith(s, env, config, scan, json))
    ensures StartWith(s, env, config, scan, json).configFile == s.configFile
    ensures s.uploadTimer.Some? ==> s.uploadTimer.value !in StartWith(s, env, config, scan, json).liveTimers
    ensures config.userEmail == "" ==>
              && StartWith(s, env, config, scan, json).logs == Append(s.logs, LogEntry(env.now, WarningLog, DisabledMessage))
              && StartWith(s, env, config, scan, json).uploadTimer == s.uploadTimer
              && StartWith(s, env, config, scan, json).liveTimers == {}
    ensures config.userEmail != "" ==>
              && StartWith(s, env, config, scan, json).uploadTimer == Some(Handle(s.nextTimerId, IntervalMs(config.uploadInterval)))
              && StartWith(s, env, config, scan, json).liveTimers == {Handle(s.nextTimerId, IntervalMs(config.uploadInterval))}
  {
    var cleared := ClearTimer(s);
    assert cleared.liveTimers == {};
    if config.userEmail == "" {
      LogKeepsInvariant(cleared, env.now, WarningLog, DisabledMessage);
    } else {
      var started := Log(cleared, env.now, InfoLog, StartedMessage(config.uploadInterval));
      LogKeepsInvariant(cleared, env.now, InfoLog, StartedMessage(config.uploadInterval));
      ScheduleWithKeepsTimers(started, env, config, scan, json);
      var ticked := ScheduleWith(started, env, config, scan, json);
      var h := Handle(ticked.nextTimerId, IntervalMs(config.uploadInterval));
      assert ticked.liveTimers == {} && ticked.nextTimerId == s.nextTimerId;
      assert StartWith(s, env, config, scan, json) ==
             ticked.(uploadTimer := Some(h), liveTimers := {h}, nextTimerId := ticked.nextTimerId + 1);
    }
  }

  /** Starting clears the old timer first. Without an email it only warns:
      one warning log, no new timer, the old handle left in `uploadTimer`
      though no longer live. With an email it arms exactly one timer, of the
      period `(uploadInterval || 600) * 1000`, and that timer is the only one
      live. */
  lemma StartArmsOneTimer(s: WrapperState, env: Env)
    requires Invariant(s)
    ensures var t := StartSpec(s, env);
            var config := ConfigOf(s.configFile);
            && Invariant(t)
            && t.configFile == s.configFile
            && (s.uploadTimer.Some? ==> s.uploadTimer.value !in t.liveTimers)
            && (config.userEmail == "" ==>
                  && t.logs == Append(s.logs, LogEntry(env.now, WarningLog, DisabledMessage))
                  && t.uploadTimer == s.uploadTimer
                  && t.liveTimers == {})
            && (config.userEmail != "" ==>
                  && t.uploadTimer.Some?
                  && t.uploadTimer.value.intervalMs == IntervalMs(config.uploadInterval)
                  && t.liveTimers == {t.uploadTimer.value}
                  && t.uploadTimer.value.id == s.nextTimerId)
  {
    StartWithArmsOneTimer(s, env, ConfigOf(s.configFile), ScanSpec(env), JsonOf(ScanSpec(env)));
  }

  /** With an email, starting logs the start message once and then runs
      exactly one tick straight away: the log, the counters and the file are
      those one `scheduleUpload()` leaves after that message. */
  lemma StartWithTicksOnce(s: WrapperState, env: Env, config: Config, scan: Result<seq<DailyAggregate>, UploadError>, json: string)
    requires config.userEmail != ""
    ensures var ticked := ScheduleWith(Log(ClearTimer(s), env.now, InfoLog, StartedMessage(config.uploadInterval)), env, config, scan, json);
            var t := StartWith(s, env, config, scan, json);
            && t.logs == ticked.logs && t.uploadCount == ticked.uploadCount
            && t.lastUploadTime == ticked.lastUploadTime && t.configFile == ticked.configFile
  {
  }

  lemma StartTicksOnce(s: WrapperState, env: Env)
    requires ConfigOf(s.configFile).userEmail != ""
    ensures var ticked := ScheduleSpec(Log(ClearTimer(s), env.now, InfoLog, StartedMessage(ConfigOf(s.configFile).uploadInterval)), env);
            var t := StartSpec(s, env);
            && t.logs == ticked.logs && t.uploadCount == ticked.uploadCount
            && t.lastUploadTime == ticked.lastUploadTime && t.configFile == ticked.configFile
  {
    var config := ConfigOf(s.configFile);
    var started := Log(ClearTimer(s), env.now, InfoLog, StartedMessage(config.uploadInterval));
    assert started.configFile == s.configFile;
    StartWithTicksOnce(s, env, config, ScanSpec(env), JsonOf(ScanSpec(env)));
  }

  /** `stop()` nulls the handle and takes its timer out of the live ones; it
      logs once when there was a handle and is a no-op otherwise, so stopping
      twice is stopping once. */
  lemma StopDisarms(s: WrapperState, now: int, later: int)
    requires Invariant(s)
    ensures Invariant(StopSpec(s, now))
    ensures StopSpec(s, now).uploadTimer.None? && StopSpec(s, now).liveTimers == {}
    ensures s.uploadTimer.Some? ==> StopSpec(s, now).logs == Append(s.logs, LogEntry(now, InfoLog, StoppedMessage))
    ensures s.uploadTimer.None? ==> StopSpec(s, now) == s
    ensures StopSpec(StopSpec(s, now), later) == StopSpec(s, now)
  {
    if s.uploadTimer.Some? {
      LogKeepsInvariant(s.(uploadTimer := None, liveTimers := s.liveTimers - {s.uploadTimer.value}), now, InfoLog, StoppedMessage);
    }
  }

  /** A rejected or unwritable configuration changes nothing: no file, no log,
      no restart. */
  lemma SaveRejectedChangesNothing(s: WrapperState, c: Config, env: Env)
    requires Validate(c).Some? || env.configWrite.Some?
    ensures SaveSpec(s, c, env).0 == s
    ensures SaveSpec(s, c, env).1.Failure?
    ensures Validate(c).Some? ==> SaveSpec(s, c, env).1 == Failure(Validate(c).value)
  {
  }

  /** An accepted configuration is written as its three lines, reads back as
      itself, and restarts the scheduler with its own interval: afterwards
      exactly one timer is live and it ticks every `uploadInterval` seconds. */
  lemma SaveRestartsWithNewInterval(s: WrapperState, c: Config, env: Env)
    requires Invariant(s)
    requires Validate(c).None? && env.configWrite.None?
    requires IsTrimmed(c.userEmail) && IsTrimmed(c.serverUrl)
    requires '\n' !in c.userEmail && '\n' !in c.serverUrl
    ensures var t := SaveSpec(s, c, env).0;
            && SaveSpec(s, c, env).1.Success?
            && Invariant(t)
            && t.configFile == Some(ConfigText(c))
            && ConfigOf(t.configFile) == c
            && t.uploadTimer == Some(Handle(s.nextTimerId, c.uploadInterval.value * 1000))
            && t.liveTimers == {Handle(s.nextTimerId, c.uploadInterval.value * 1000)}
  {
    SaveWritesConfig(s, c, env);
    SaveArmsTimer(s, c, env);
  }

  lemma SaveWritesConfig(s: WrapperState, c: Config, env: Env)
    requires Validate(c).None? && env.configWrite.None?
    requires IsTrimmed(c.userEmail) && IsTrimmed(c.serverUrl)
    requires '\n' !in c.userEmail && '\n' !in c.serverUrl
    ensures SaveSpec(s, c, env).1.Success?
    ensures SaveSpec(s, c, env).0.configFile == Some(ConfigText(c))
    ensures ConfigOf(SaveSpec(s, c, env).0.configFile) == c
  {
    var logged := Log(s.(configFile := Some(ConfigText(c))), env.now, InfoLog, RestartMessage);
    SaveWritesThenStarts(s, c, env);
    SavedConfigReadsBack(c);
    StartReadsConfig(logged, env, c);
    StartWithKeepsFile(logged, env, c, ScanSpec(env), JsonOf(ScanSpec(env)));
  }

  lemma SaveArmsTimer(s: WrapperState, c: Config, env: Env)
    requires Invariant(s)
    requires Validate(c).None? && env.configWrite.None?
    requires IsTrimmed(c.userEmail) && IsTrimmed(c.serverUrl)
    requires '\n' !in c.userEmail && '\n' !in c.serverUrl
    ensures Invariant(SaveSpec(s, c, env).0)
    ensures SaveSpec(s, c, env).0.uploadTimer == Some(Handle(s.nextTimerId, c.uploadInterval.value * 1000))
    ensures SaveSpec(s, c, env).0.liveTimers == {Handle(s.nextTimerId, c.uploadInterval.value * 1000)}
  {
    var logged := Log(s.(configFile := Some(ConfigText(c))), env.now, InfoLog, RestartMessage);
    SaveIsStartWith(s, c, env);
    LogKeepsInvariant(s.(configFile := Some(ConfigText(c))), env.now, InfoLog, RestartMessage);
    assert c.userEmail != "";
    assert IntervalMs(c.uploadInterval) == c.uploadInterval.value * 1000;
    StartWithArmsOneTimer(logged, env, c, ScanSpec(env), JsonOf(ScanSpec(env)));
  }

  lemma SaveIsStartWith(s: WrapperState, c: Config, env: Env)
    requires Validate(c).None? && env.configWrite.None?
    requires IsTrimmed(c.userEmail) && IsTrimmed(c.serverUrl)
    requires '\n' !in c.userEmail && '\n' !in c.serverUrl
    ensures SaveSpec(s, c, env).0 ==
            StartWith(Log(s.(configFile := Some(ConfigText(c))), env.now, InfoLog, RestartMessage), env, c, ScanSpec(env), JsonOf(ScanSpec(env)))
  {
    var logged := Log(s.(configFile := Some(ConfigText(c))), env.now, InfoLog, RestartMessage);
    SaveWritesThenStarts(s, c, env);
    SavedConfigReadsBack(c);
    StartReadsConfig(logged, env, c);
  }

  lemma StartWithKeepsFile(s: WrapperState, env: Env, config: Config, scan: Result<seq<DailyAggregate>, UploadError>, json: string)
    ensures StartWith(s, env, config, scan, json).configFile == s.configFile
  {
    if config.userEmail != "" {
      UploadWithOutcome(Log(ClearTimer(s), env.now, InfoLog, StartedMessage(config.uploadInterval)), env, config, scan, json);
    }
  }

  lemma SaveWritesThenStarts(s: WrapperState, c: Config, env: Env)
    requires Validate(c).None? && env.configWrite.None?
    ensures SaveSpec(s, c, env) == (StartSpec(Log(s.(configFile := Some(ConfigText(c))), env.now, InfoLog, RestartMessage), env), Success(()))
  {
  }

  lemma StartReadsConfig(s: WrapperState, env: Env, c: Config)
    requires ConfigOf(s.configFile) == c
    ensures StartSpec(s, env) == StartWith(s, env, c, ScanSpec(env), JsonOf(ScanSpec(env)))
  {
  }

  /** Two accepted saves in a row leave only the second one's timer live. */
  lemma LatestSaveWins(s: WrapperState, c1: Config, c2: Config, env1: Env, env2: Env)
    requires Invariant(s)
    requires Validate(c1).None? && env1.configWrite.None?
    requires Validate(c2).None? && env2.configWrite.None?
    requires IsTrimmed(c1.userEmail) && IsTrimmed(c1.serverUrl) && '\n' !in c1.userEmail && '\n' !in c1.serverUrl
    requires IsTrimmed(c2.userEmail) && IsTrimmed(c2.serverUrl) && '\n' !in c2.userEmail && '\n' !in c2.serverUrl
    ensures ConfigOf(SaveSpec(SaveSpec(s, c1, env1).0, c2, env2).0.configFile) == c2
    ensures SaveSpec(SaveSpec(s, c1, env1).0, c2, env2).0.liveTimers ==
            {Handle(SaveSpec(s, c1, env1).0.nextTimerId, c2.uploadInterval.value * 1000)}
  {
    SaveRestartsWithNewInterval(s, c1, env1);
    SaveRestartsWithNewInterval(SaveSpec(s, c1, env1).0, c2, env2);
  }

  // ---------------------------------------------------------------- the object

  /** The wrapper object. Its fields are those of `WrapperState`; each method
      does what the source does, statement by statement, and ends in the
      state its specification function gives. */
  class ClaudeWrapper {
    var configFile: Option<string>
    var logs: seq<LogEntry>
    var uploadCount: nat
    var lastUploadTime: Option<int>
    var uploadTimer: Option<Handle>
    var liveTimers: set<Handle>
    var nextTimerId: nat

    function State(): WrapperState
      reads this
    {
      WrapperState(configFile, logs, uploadCount, lastUploadTime, uploadTimer, liveTimers, nextTimerId)
    }

    ghost predicate Valid()
      reads this
    {
      Invariant(State())
    }

    /** `new ClaudeWrapper()`: empty log, no uploads, no timer; then the
        scheduler is started. */
    constructor(configFile: Option<string>, env: Env)
      ensures Valid()
      ensures State() == StartSpec(Initial(configFile), env)
    {
      this.configFile := configFile;
      logs := [];
      uploadCount := 0;
      lastUploadTime := None;
      uploadTimer := None;
      liveTimers := {};
      nextTimerId := 0;
      new;
      StartAutoUpload(env);
    }

    /** `addLog(level, message)`: push the entry, and drop the oldest one
        when the log has grown past its cap. */
    method AddLog(now: int, level: Level, message: string) returns (entry: LogEntry)
      requires Valid()
      modifies this
      ensures Valid()
      ensures entry == LogEntry(now, level, message)
      ensures State() == Log(old(State()), now, level, message)
    {
      entry := LogEntry(now, level, message);
      AppendBounded(logs, entry);
      logs := logs + [entry];
      if |logs| > MaxLogs {
        logs := logs[1..];
      }
    }

    method GetLogs() returns (r: seq<LogEntry>)
      ensures r == logs
    {
      r := logs;
    }

    method GetStatus() returns (count: nat, last: Option<int>)
      ensures count == uploadCount && last == lastUploadTime
    {
      count := uploadCount;
      last := lastUploadTime;
    }

    /** `getConfig()`: the defaults, overridden line by line by the
        assignments in the file. */
    method GetConfig() returns (c: Config)
      ensures c == ConfigOf(configFile)
    {
      c := Defaults;
      if configFile.None? {
        return;
      }
      var lines := Split(configFile.value, '\n');
      for i := 0 to |lines|
        invariant c == ApplyLines(Defaults, lines[..i])
      {
        ApplyLinesStep(Defaults, lines, i);
        var trimmed := Trim(lines[i]);
        if trimmed == [] || trimmed[0] == '#' {
          continue;
        }
        var parts := Split(trimmed, '=');
        var key := parts[0];
        var value := Trim(Join(parts[1..], '='));
        if key == EmailKey {
          c := c.(userEmail := value);
        } else if key == ServerUrlKey {
          c := c.(serverUrl := value);
        } else if key == IntervalKey {
          c := c.(uploadInterval := ParseInt(value));
        }
      }
      assert lines[..|lines|] == lines;
    }

    /** `saveConfig(config)`: validate, write the three lines, log, restart. */
    method SaveConfig(c: Config, env: Env) returns (r: Result<(), SaveError>)
      requires Valid()
      modifies this
      ensures Valid()
      ensures (State(), r) == SaveSpec(old(State()), c, env)
    {
      var rejected := Validate(c);
      if rejected.Some? {
        return Failure(rejected.value);
      }
      if env.configWrite.Some? {
        return Failure(WriteFailed(env.configWrite.value));
      }
      WriteConfig(c, env);
      StartAutoUpload(env);
      r := Success(());
    }

    /** The accepted half of `saveConfig(config)`: the file holds the new
        text and the restart is logged. */
    method WriteConfig(c: Config, env: Env)
      requires Valid() && c.uploadInterval.Some?
      modifies this
      ensures Valid()
      ensures State() == Log(old(State()).(configFile := Some(ConfigText(c))), env.now, InfoLog, RestartMessage)
    {
      configFile := Some(ConfigText(c));
      var entry := AddLog(env.now, InfoLog, RestartMessage);
    }

    /** `startAutoUpload()`. */
    method StartAutoUpload(env: Env)
      requires Valid()
      modifies this
      ensures Valid()
      ensures State() == StartSpec(old(State()), env)
    {
      ghost var s0 := State();
      StartArmsOneTimer(s0, env);
      if uploadTimer.Some? {
        liveTimers := liveTimers - {uploadTimer.value};
      }
      var config := GetConfig();
      if config.userEmail == "" {
        var entry := AddLog(env.now, WarningLog, DisabledMessage);
        return;
      }
      var intervalMs := IntervalMs(config.uploadInterval);
      var entry := AddLog(env.now, InfoLog, StartedMessage(config.uploadInterval));
      ScheduleUpload(env);
      var h := Handle(nextTimerId, intervalMs);
      uploadTimer := Some(h);
      liveTimers := liveTimers + {h};
      nextTimerId := nextTimerId + 1;
    }

    /** `scheduleUpload()`: an upload whose error is logged, not thrown. */
    method ScheduleUpload(env: Env)
      requires Valid()
      modifies this
      ensures Valid()
      ensures State() == ScheduleSpec(old(State()), env)
    {
      var r := UploadUsageData(env);
      if r.Failure? {
        var entry := AddLog(env.now, ErrorLog, ScheduleFailurePrefix + ErrorMessage(r.error));
      }
    }

    /** `stop()`. */
    method Stop(now: int)
      requires Valid()
      modifies this
      ensures Valid()
      ensures State() == StopSpec(old(State()), now)
    {
      if uploadTimer.Some? {
        liveTimers := liveTimers - {uploadTimer.value};
        uploadTimer := None;
        var entry := AddLog(now, InfoLog, StoppedMessage);
      }
    }

    /** `findJsonlFiles(dir)`. */
    method FindJsonlFiles(dir: string, listing: Listing<FileContent>) returns (r: Result<seq<Found<FileContent>>, string>)
      ensures r == FindJsonl(dir, listing)
    {
      r := Walk(dir, listing, []);
      if r.Success? {
        assert [] + FindJsonl(dir, listing).value == FindJsonl(dir, listing).value;
      }
    }

    /** `scanUsageData()`. */
    method ScanUsageData(env: Env) returns (r: Result<seq<DailyAggregate>, UploadError>)
      ensures r == ScanSpec(env)
    {
      if env.projects.None? {
        return Failure(ProjectsDirMissing);
      }
      var files := FindJsonlFiles(env.home + ProjectsSubdir, env.projects.value);
      if files.Failure? {
        return Failure(ScanFailed(files.error));
      }
      var scanned := ScanFiles(files.value, Cutoff(env.now), env.localDate);
      if scanned.Failure? {
        return Failure(ScanFailed(scanned.error));
      }
      r := Success(Summary(scanned.value.daily));
    }

    /** `uploadUsageData()`: read the configuration, log, scan, serialise,
        send, and count the upload when the server accepts it. */
    method UploadUsageData(env: Env) returns (r: Result<seq<DailyAggregate>, UploadError>)
      requires Valid()
      modifies this
      ensures Valid()
      ensures (State(), r) == UploadSpec(old(State()), env)
    {
      ghost var s0 := State();
      UploadKeepsInvariant(s0, env);
      var config := GetConfig();
      UploadSpecIsWith(s0, env, config, ScanSpec(env));
      if config.userEmail == "" {
        return Failure(MissingEmail);
      }
      var entry := AddLog(env.now, InfoLog, CollectingMessage);
      var usage := ScanUsageData(env);
      if usage.Failure? {
        return Failure(usage.error);
      }
      var json := PayloadText(usage.value);
      if |json| < 10 {
        return Failure(PayloadTooSmall);
      }
      r := SendPayload(env, config, json, usage.value);
    }

    /** The sending half of `uploadUsageData()`: write the temporary file,
        post it, and count the upload when the server accepts it. */
    method SendPayload(env: Env, config: Config, json: string, daily: seq<DailyAggregate>)
      returns (r: Result<seq<DailyAggregate>, UploadError>)
      requires Valid()
      modifies this
      ensures Valid()
      ensures (State(), r) == ReceiveSpec(old(State()), env, config, json, daily)
    {
      if env.tempWrite.Some? {
        return Failure(TempFileFailed(env.tempWrite.value));
      }
      var request := RequestFor(config, json, env.hostname, env.now);
      match env.respond(request) {
        case NoResponse(reason) =>
          return Failure(RequestFailed(reason));
        case Responds(status, body) =>
          if !Accepted(status) {
            return Failure(HttpError(status, body));
          }
          uploadCount := uploadCount + 1;
          lastUploadTime := Some(env.now);
          var entry := AddLog(env.now, SuccessLog, SuccessMessage(uploadCount));
      }
      r := Success(daily);
    }
  }
}
