/** What one run of `uploadUsageData` depends on besides the wrapper's own
    state, the errors it can end with, and the request it sends. */
module Upload {
  import opened Wrappers
  import opened Strings
  import opened ConfigStore
  import opened FileTree
  import opened UsageScan
  import opened DailySummary
  import opened Payload

  /** Where the upload is posted, relative to the configured server URL. */
  const UploadPath: string := "/api/claude-usage/upload"

  /** The directory the scan starts from, relative to the home directory. */
  const ProjectsSubdir: string := "/.claude/projects"

  /** How a request went: it failed before a response (a malformed URL, a
      refused connection), or the server answered with a status code and a
      body. */
  datatype Transport = NoResponse(reason: string) | Responds(status: int, body: string)

  /** The outside world for one operation: the clock, the home directory and
      the tree under `~/.claude/projects` (`None` when it does not exist), the
      host name, whether writing the temporary payload file fails, how the
      server answers a given upload request, whether writing the
      configuration file fails, and the local time zone's calendar day of a
      time. */
  datatype Env = Env(
    now: int,
    home: string,
    projects: Option<Listing<FileContent>>,
    hostname: string,
    tempWrite: Option<string>,
    respond: UploadRequest -> Transport,
    configWrite: Option<string>,
    localDate: int -> string)

  /** The ways `uploadUsageData` throws. */
  datatype UploadError =
    | MissingEmail
    | ProjectsDirMissing
    | ScanFailed(reason: string)
    | PayloadTooSmall
    | TempFileFailed(reason: string)
    | RequestFailed(reason: string)
    | HttpError(status: int, body: string)

  const MissingEmailMessage: string := "사용자 이메일이 설정되지 않았습니다"
  const ProjectsDirMissingMessage: string := "Claude projects 디렉토리가 존재하지 않습니다"
  const PayloadTooSmallMessage: string := "데이터가 너무 작거나 비어있습니다"

  /** The `message` of the error thrown. */
  function ErrorMessage(e: UploadError): string {
    match e
    case MissingEmail => MissingEmailMessage
    case ProjectsDirMissing => ProjectsDirMissingMessage
    case ScanFailed(reason) => reason
    case PayloadTooSmall => PayloadTooSmallMessage
    case TempFileFailed(reason) => reason
    case RequestFailed(reason) => reason
    case HttpError(status, body) => "HTTP " + IntToString(status) + ": " + body
  }

  /** Only 200 and 201 count as a successful upload. */
  predicate Accepted(status: int) {
    status == 200 || status == 201
  }

  function LowerAscii(c: char): char {
    if 'A' <= c <= 'Z' then (c as int + 32) as char else c
  }

  /** The URL's scheme is `https`: `new URL(u).protocol === 'https:'`, the
      scheme being matched without regard to ASCII case. */
  predicate IsHttps(url: string) {
    |url| >= 6 && forall k :: 0 <= k < 6 ==> LowerAscii(url[k]) == "https:"[k]
  }

  /** The multipart form the request carries: the payload as the `file`
      part, the host name, the upload time in whole seconds, and the email. */
  datatype UploadRequest = UploadRequest(https: bool, url: string, file: string, hostname: string, timestamp: string, userEmail: string)

  function RequestFor(c: Config, payload: string, hostname: string, now: int): UploadRequest {
    var url := c.serverUrl + UploadPath;
    UploadRequest(IsHttps(url), url, payload, hostname, IntToString(now / 1000), c.userEmail)
  }

  /** The request goes to the server URL followed by the upload path, uses TLS
      exactly for an `https:` URL, and carries the payload, the host name, the
      time in whole seconds and the email. */
  lemma RequestForCarries(c: Config, payload: string, hostname: string, now: int)
    ensures var r := RequestFor(c, payload, hostname, now);
            && EndsWith(r.url, UploadPath) && StartsWith(r.url, c.serverUrl) && |r.url| == |c.serverUrl| + |UploadPath|
            && (r.https <==> IsHttps(r.url))
            && r.file == payload && r.hostname == hostname && r.userEmail == c.userEmail
            && ParseInt(r.timestamp) == Some(now / 1000)
  {
    var url := c.serverUrl + UploadPath;
    assert url[..|c.serverUrl|] == c.serverUrl;
    assert url[|url| - |UploadPath|..] == UploadPath;
    ParseIntOfIntToString(now / 1000);
  }

  /** `scanUsageData`: the projects directory must exist; then the walk, the
      reading and scanning of the files it found, and the summary. */
  function ScanSpec(env: Env): (r: Result<seq<DailyAggregate>, UploadError>)
    ensures env.projects.None? ==> r == Failure(ProjectsDirMissing)
  {
    match env.projects
    case None => Failure(ProjectsDirMissing)
    case Some(listing) =>
      match FindJsonl(env.home + ProjectsSubdir, listing)
      case Failure(reason) => Failure(ScanFailed(reason))
      case Success(files) =>
        match AllLines(files)
        case Failure(reason) => Failure(ScanFailed(reason))
        case Success(lines) => Success(Summary(ScanLines(EmptyScan, lines, Cutoff(env.now), env.localDate).daily))
  }

  /** A successful scan counts each qualifying record exactly once: the
      request counts add up to the distinct ids plus the id-less records, and
      the days come out strictly ascending. */
  lemma ScanCountsEachRecordOnce(env: Env)
    requires ScanSpec(env).Success?
    ensures var files := FindJsonl(env.home + ProjectsSubdir, env.projects.value).value;
            var lines := AllLines(files).value;
            var q := Qualifying(Records(lines), Cutoff(env.now));
            && RequestTotal(ScanSpec(env).value) == |Ids(q)| + |IdLess(q)|
            && StrictlyAscending(DatesOf(ScanSpec(env).value))
  {
    var files := FindJsonl(env.home + ProjectsSubdir, env.projects.value).value;
    var lines := AllLines(files).value;
    var cutoff := Cutoff(env.now);
    ScanIsPipeline(lines, cutoff, env.localDate);
    CountedRecords(lines, cutoff);
    SummaryCountsEveryRecord(Counted(lines, cutoff), env.localDate);
  }
}
