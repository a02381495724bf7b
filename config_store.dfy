/** The configuration file `~/.claude-usage-config`: a line-oriented
    `key=value` text with the keys `user_email`, `server_url` and
    `upload_interval`. This module holds what `getConfig` computes from the
    file's text and what `saveConfig` checks and writes; the class in
    claude_wrapper.dfy owns the file and runs the line loop. */
module ConfigStore {
  import opened Wrappers
  import opened Strings

  /** `uploadInterval` is what `parseInt` produced: `None` stands for NaN. */
  datatype Config = Config(serverUrl: string, uploadInterval: Option<int>, userEmail: string)

  const DefaultServerUrl: string := "http://10.12.200.99:3498"
  const DefaultUploadInterval: int := 600

  /** What `getConfig` starts from, and all it returns when the file cannot be read. */
  const Defaults: Config := Config(DefaultServerUrl, Some(DefaultUploadInterval), "")

  const EmailKey: string := "user_email"
  const ServerUrlKey: string := "server_url"
  const IntervalKey: string := "upload_interval"

  lemma KeysDistinct()
    ensures EmailKey != ServerUrlKey && EmailKey != IntervalKey && ServerUrlKey != IntervalKey
  {
    assert EmailKey[0] != ServerUrlKey[0];
    assert |EmailKey| != |IntervalKey| && |ServerUrlKey| != |IntervalKey|;
  }

  /** A key `saveConfig` can write so that it reads back: not empty, no
      white space or `#` in front, no `=` and no newline in it. */
  predicate PlainKey(key: string) {
    key != [] && !IsSpace(key[0]) && key[0] != '#' && '=' !in key && '\n' !in key
  }

  lemma KeysPlain()
    ensures PlainKey(EmailKey) && PlainKey(ServerUrlKey) && PlainKey(IntervalKey)
  {
  }

  predicate IsKnownKey(key: string) {
    key == EmailKey || key == ServerUrlKey || key == IntervalKey
  }

  // ---------------------------------------------------------------- reading

  /** Blank lines and lines whose trimmed text starts with `#` are skipped. */
  predicate IsSkipped(line: string) {
    var t := Trim(line);
    t == [] || t[0] == '#'
  }

  /** The key: the trimmed line up to its first `=` (all of it when there is none). */
  function LineKey(line: string): string {
    Split(Trim(line), '=')[0]
  }

  /** The value: everything after the first `=`, re-joined with `=` and trimmed. */
  function LineValue(line: string): string {
    Trim(Join(Split(Trim(line), '=')[1..], '='))
  }

  /** The line assigns `key`. */
  predicate SetsKey(line: string, key: string) {
    !IsSkipped(line) && LineKey(line) == key
  }

  /** The effect of one line of the file on the configuration read so far. */
  function ApplyLine(c: Config, line: string): Config {
    if IsSkipped(line) then c
    else
      var key := LineKey(line);
      var value := LineValue(line);
      if key == EmailKey then c.(userEmail := value)
      else if key == ServerUrlKey then c.(serverUrl := value)
      else if key == IntervalKey then c.(uploadInterval := ParseInt(value))
      else c
  }

  /** The lines applied in order, first to last. */
  function ApplyLines(c: Config, lines: seq<string>): Config
    decreases |lines|
  {
    if lines == [] then c
    else ApplyLine(ApplyLines(c, lines[..|lines| - 1]), lines[|lines| - 1])
  }

  /** The configuration `getConfig` returns for the file's contents; `None`
      is a file that is missing or cannot be read. */
  function ConfigOf(file: Option<string>): Config {
    match file
    case None => Defaults
    case Some(text) => ApplyLines(Defaults, Split(text, '\n'))
  }

  /** A line `k=v` (after trimming) has key `k` and value `v` trimmed, whatever
      further `=` signs `v` holds. */
  lemma KeyValueOfLine(line: string, k: string, v: string)
    requires Trim(line) == k + "=" + v
    requires '=' !in k && (k == [] || k[0] != '#')
    ensures !IsSkipped(line)
    ensures LineKey(line) == k && LineValue(line) == Trim(v)
  {
    var t := Trim(line);
    assert t[0] == (if k == [] then '=' else k[0]);
    assert k + "=" + v == k + ['='] + v;
    SplitAtFirst(k, v, '=');
    JoinSplit(v, '=');
  }

  /** A non-skipped line without `=` is all key and has an empty value. */
  lemma KeyWithoutValue(line: string)
    requires !IsSkipped(line) && '=' !in Trim(line)
    ensures LineKey(line) == Trim(line) && LineValue(line) == ""
  {
  }

  /** A skipped line, or a line with an unknown key, can be deleted from the
      file without changing what is read. */
  lemma {:induction false} InertLineIgnored(c: Config, before: seq<string>, line: string, after: seq<string>)
    requires IsSkipped(line) || !IsKnownKey(LineKey(line))
    ensures ApplyLines(c, before + [line] + after) == ApplyLines(c, before + after)
    decreases |after|
  {
    if after == [] {
      assert (before + [line])[..|before|] == before;
      assert before + [line] + [] == before + [line];
      assert before + [] == before;
    } else {
      var last := after[|after| - 1];
      var rest := after[..|after| - 1];
      InertLineIgnored(c, before, line, rest);
      assert (before + [line] + after)[..|before + [line] + after| - 1] == before + [line] + rest;
      assert (before + after)[..|before + after| - 1] == before + rest;
    }
  }

  /** What one field of the configuration holds, written as text for the
      string fields and through `parseInt` for the interval. */
  predicate FieldIs(c: Config, key: string, value: string) {
    && (key == EmailKey ==> c.userEmail == value)
    && (key == ServerUrlKey ==> c.serverUrl == value)
    && (key == IntervalKey ==> c.uploadInterval == ParseInt(value))
  }

  /** Last write wins: the field a key names holds the value of the last line
      that sets that key, whatever came before it. */
  lemma {:induction false} LastWriteWins(c: Config, lines: seq<string>, i: nat, key: string)
    requires i < |lines| && IsKnownKey(key) && SetsKey(lines[i], key)
    requires forall j :: i < j < |lines| ==> !SetsKey(lines[j], key)
    ensures FieldIs(ApplyLines(c, lines), key, LineValue(lines[i]))
    decreases |lines|
  {
    var prefix := lines[..|lines| - 1];
    var last := lines[|lines| - 1];
    assert ApplyLines(c, lines) == ApplyLine(ApplyLines(c, prefix), last);
    if i < |lines| - 1 {
      assert prefix[i] == lines[i];
      assert forall j :: i < j < |prefix| ==> prefix[j] == lines[j];
      LastWriteWins(c, prefix, i, key);
      OtherLineKeepsField(ApplyLines(c, prefix), last, key, LineValue(lines[i]));
    } else {
      LineSetsField(ApplyLines(c, prefix), last, key);
    }
  }

  /** A line that sets `key` puts its value into that field. */
  lemma LineSetsField(c: Config, line: string, key: string)
    requires IsKnownKey(key) && SetsKey(line, key)
    ensures FieldIs(ApplyLine(c, line), key, LineValue(line))
  {
  }

  /** A line that does not set `key` leaves that field as it was. */
  lemma OtherLineKeepsField(c: Config, line: string, key: string, value: string)
    requires IsKnownKey(key) && !SetsKey(line, key) && FieldIs(c, key, value)
    ensures FieldIs(ApplyLine(c, line), key, value)
  {
  }

  /** A key that no line of the file sets keeps its default. */
  lemma {:induction false} UnsetKeyKeepsDefault(c: Config, lines: seq<string>, key: string, value: string)
    requires IsKnownKey(key) && FieldIs(c, key, value)
    requires forall j :: 0 <= j < |lines| ==> !SetsKey(lines[j], key)
    ensures FieldIs(ApplyLines(c, lines), key, value)
    decreases |lines|
  {
    if lines != [] {
      var prefix := lines[..|lines| - 1];
      assert forall j :: 0 <= j < |prefix| ==> prefix[j] == lines[j];
      UnsetKeyKeepsDefault(c, prefix, key, value);
      OtherLineKeepsField(ApplyLines(c, prefix), lines[|lines| - 1], key, value);
    }
  }

  // ---------------------------------------------------------------- saving

  datatype SaveError = EmailRequired | ServerUrlRequired | IntervalRequired | WriteFailed(reason: string)

  /** The message `saveConfig` returns in its `error` field. */
  function SaveErrorMessage(e: SaveError): string {
    match e
    case EmailRequired => "사용자 이메일은 필수 항목입니다"
    case ServerUrlRequired => "서버 URL은 필수 항목입니다"
    case IntervalRequired => "업로드 주기는 필수 항목입니다"
    case WriteFailed(reason) => reason
  }

  /** The checks `saveConfig` makes before writing, in their order: the email,
      then the server URL (each must hold more than white space), then the
      interval (a number above zero). */
  function Validate(c: Config): (r: Option<SaveError>)
    ensures r == Some(EmailRequired) <==> IsBlank(c.userEmail)
    ensures r == Some(ServerUrlRequired) <==> !IsBlank(c.userEmail) && IsBlank(c.serverUrl)
    ensures r == Some(IntervalRequired) <==>
              !IsBlank(c.userEmail) && !IsBlank(c.serverUrl) && (c.uploadInterval.None? || c.uploadInterval.value <= 0)
    ensures r == None <==>
              !IsBlank(c.userEmail) && !IsBlank(c.serverUrl) && c.uploadInterval.Some? && c.uploadInterval.value > 0
  {
    TrimEmptyIffBlank(c.userEmail);
    TrimEmptyIffBlank(c.serverUrl);
    if Trim(c.userEmail) == [] then Some(EmailRequired)
    else if Trim(c.serverUrl) == [] then Some(ServerUrlRequired)
    else if c.uploadInterval.None? || c.uploadInterval.value <= 0 then Some(IntervalRequired)
    else None
  }
  /** The text `saveConfig` returns for each rejected field, checked in the
      source's order; the three texts differ, so the caller can tell which
      field was missing. */
  lemma RejectionMessages(c: Config)
    ensures IsBlank(c.userEmail) ==>
              Validate(c).Some? && SaveErrorMessage(Validate(c).value) == "사용자 이메일은 필수 항목입니다"
    ensures !IsBlank(c.userEmail) && IsBlank(c.serverUrl) ==>
              Validate(c).Some? && SaveErrorMessage(Validate(c).value) == "서버 URL은 필수 항목입니다"
    ensures !IsBlank(c.userEmail) && !IsBlank(c.serverUrl) && (c.uploadInterval.None? || c.uploadInterval.value <= 0) ==>
              Validate(c).Some? && SaveErrorMessage(Validate(c).value) == "업로드 주기는 필수 항목입니다"
    ensures SaveErrorMessage(EmailRequired) != SaveErrorMessage(ServerUrlRequired)
    ensures SaveErrorMessage(EmailRequired) != SaveErrorMessage(IntervalRequired)
    ensures SaveErrorMessage(ServerUrlRequired) != SaveErrorMessage(IntervalRequired)
  {
  }


  /** The three lines `saveConfig` writes. */
  function ConfigLines(c: Config): seq<string>
    requires c.uploadInterval.Some?
  {
    [EmailKey + "=" + c.userEmail,
     ServerUrlKey + "=" + c.serverUrl,
     IntervalKey + "=" + IntToString(c.uploadInterval.value)]
  }

  /** The file text `saveConfig` writes: the lines joined by newlines, plus a final newline. */
  function ConfigText(c: Config): string
    requires c.uploadInterval.Some?
  {
    Join(ConfigLines(c), '\n') + "\n"
  }

  /** A `key=value` line with a plain key and a value without white space at
      its ends reads back as exactly that key and value. */
  lemma AssignmentReads(key: string, value: string)
    requires PlainKey(key)
    requires IsTrimmed(value)
    ensures !IsSkipped(key + "=" + value)
    ensures LineKey(key + "=" + value) == key && LineValue(key + "=" + value) == value
  {
    var line := key + "=" + value;
    assert line[0] == key[0];
    assert line[|line| - 1] == if value == [] then '=' else value[|value| - 1];
    TrimOfTrimmed(line);
    KeyValueOfLine(line, key, value);
    TrimOfTrimmed(value);
  }

  /** The written text splits into the three lines and an empty last piece. */
  lemma ConfigTextSplits(c: Config)
    requires c.uploadInterval.Some?
    requires '\n' !in c.userEmail && '\n' !in c.serverUrl
    ensures Split(ConfigText(c), '\n') == ConfigLines(c) + [""]
  {
    var n := c.uploadInterval.value;
    var l1, l2, l3 := EmailKey + "=" + c.userEmail, ServerUrlKey + "=" + c.serverUrl, IntervalKey + "=" + IntToString(n);
    KeysPlain();
    IntToStringNoNewline(n);
    ThreeLinesJoin(l1, l2, l3);
    SplitThreeLines(l1, l2, l3);
  }

  lemma ThreeLinesJoin(l1: string, l2: string, l3: string)
    ensures Join([l1, l2, l3], '\n') + "\n" == l1 + ['\n'] + (l2 + ['\n'] + (l3 + ['\n'] + ""))
  {
    assert [l1, l2, l3][1..] == [l2, l3] && [l2, l3][1..] == [l3];
    assert Join([l2, l3], '\n') == l2 + ['\n'] + l3;
    assert Join([l1, l2, l3], '\n') == l1 + ['\n'] + (l2 + ['\n'] + l3);
  }

  lemma SplitThreeLines(l1: string, l2: string, l3: string)
    requires '\n' !in l1 && '\n' !in l2 && '\n' !in l3
    ensures Split(l1 + ['\n'] + (l2 + ['\n'] + (l3 + ['\n'] + "")), '\n') == [l1, l2, l3, ""]
  {
    SplitAtFirst(l1, l2 + ['\n'] + (l3 + ['\n'] + ""), '\n');
    SplitAtFirst(l2, l3 + ['\n'] + "", '\n');
    SplitAtFirst(l3, "", '\n');
    assert Split("", '\n') == [""];
    NestedFourLines(l1, l2, l3, "");
  }

  lemma NestedFourLines<T>(a: T, b: T, c: T, d: T)
    ensures [a] + ([b] + ([c] + [d])) == [a, b, c, d]
  {
  }

  /** The decimal form of an integer holds no newline. */
  lemma IntToStringNoNewline(n: int)
    ensures '\n' !in IntToString(n)
  {
    if n < 0 {
      assert IntToString(n) == "-" + NatToString(-n);
    }
  }

  lemma IntToStringTrimmed(n: int)
    ensures IsTrimmed(IntToString(n))
  {
    var s := IntToString(n);
    if n < 0 {
      var d := NatToString(-n);
      assert s == "-" + d;
      assert s[|s| - 1] == d[|d| - 1];
      assert IsDigit(d[|d| - 1]);
    } else {
      assert IsDigit(s[0]) && IsDigit(s[|s| - 1]);
    }
  }


  /** Round trip: a saved configuration whose email and URL have no white
      space at their ends and no newline is read back unchanged. */
  lemma SavedConfigReadsBack(c: Config)
    requires c.uploadInterval.Some?
    requires IsTrimmed(c.userEmail) && IsTrimmed(c.serverUrl)
    requires '\n' !in c.userEmail && '\n' !in c.serverUrl
    ensures ConfigOf(Some(ConfigText(c))) == c
  {
    ConfigTextSplits(c);
    ConfigLinesRead(c);
  }

  /** The three written lines, followed by the empty piece after the final
      newline, give back the configuration. */
  lemma ConfigLinesRead(c: Config)
    requires c.uploadInterval.Some?
    requires IsTrimmed(c.userEmail) && IsTrimmed(c.serverUrl)
    ensures ApplyLines(Defaults, ConfigLines(c) + [""]) == c
  {
    var l1, l2, l3 := EmailKey + "=" + c.userEmail, ServerUrlKey + "=" + c.serverUrl, IntervalKey + "=" + IntToString(c.uploadInterval.value);
    assert ConfigLines(c) + [""] == [l1, l2, l3, ""];
    EmailLineReads(c.userEmail);
    ServerUrlLineReads(c.serverUrl);
    IntervalLineReads(c.uploadInterval.value);
    ReadWrittenLines(l1, l2, l3);
  }

  lemma EmailLineReads(value: string)
    requires IsTrimmed(value)
    ensures SetsKey(EmailKey + "=" + value, EmailKey)
    ensures LineValue(EmailKey + "=" + value) == value
  {
    KeysPlain();
    AssignmentReads(EmailKey, value);
  }

  lemma ServerUrlLineReads(value: string)
    requires IsTrimmed(value)
    ensures SetsKey(ServerUrlKey + "=" + value, ServerUrlKey)
    ensures LineValue(ServerUrlKey + "=" + value) == value
  {
    KeysPlain();
    AssignmentReads(ServerUrlKey, value);
  }

  lemma IntervalLineReads(n: int)
    ensures SetsKey(IntervalKey + "=" + IntToString(n), IntervalKey)
    ensures ParseInt(LineValue(IntervalKey + "=" + IntToString(n))) == Some(n)
  {
    KeysPlain();
    IntToStringTrimmed(n);
    AssignmentReads(IntervalKey, IntToString(n));
    ParseIntOfIntToString(n);
  }

  /** An email line, a URL line, an interval line and the empty piece read
      as the three values. */
  lemma ReadWrittenLines(l1: string, l2: string, l3: string)
    requires SetsKey(l1, EmailKey) && SetsKey(l2, ServerUrlKey) && SetsKey(l3, IntervalKey)
    ensures ApplyLines(Defaults, [l1, l2, l3, ""]) == Config(LineValue(l2), ParseInt(LineValue(l3)), LineValue(l1))
  {
    var c1 := Defaults.(userEmail := LineValue(l1));
    var c2 := c1.(serverUrl := LineValue(l2));
    var c3 := c2.(uploadInterval := ParseInt(LineValue(l3)));
    FourLines(l1, l2, l3, "");
    ApplyLinesSnoc(Defaults, [], l1);
    EmailLineSets(Defaults, l1);
    ApplyLinesSnoc(Defaults, [l1], l2);
    ServerUrlLineSets(c1, l2);
    ApplyLinesSnoc(Defaults, [l1, l2], l3);
    IntervalLineSets(c2, l3);
    ApplyLinesSnoc(Defaults, [l1, l2, l3], "");
    EmptyLineKeeps(c3);
  }

  lemma FourLines<T>(a: T, b: T, c: T, d: T)
    ensures [] + [a] == [a] && [a] + [b] == [a, b] && [a, b] + [c] == [a, b, c] && [a, b, c] + [d] == [a, b, c, d]
  {
  }

  lemma ApplyLinesSnoc(c: Config, lines: seq<string>, line: string)
    ensures ApplyLines(c, lines + [line]) == ApplyLine(ApplyLines(c, lines), line)
  {
    assert (lines + [line])[..|lines|] == lines;
  }

  /** One more line of the file, as the loop in `getConfig` takes it. */
  lemma ApplyLinesStep(c: Config, lines: seq<string>, i: nat)
    requires i < |lines|
    ensures ApplyLines(c, lines[..i + 1]) == ApplyLine(ApplyLines(c, lines[..i]), lines[i])
  {
    assert lines[..i + 1][..i] == lines[..i];
  }

  lemma EmailLineSets(c: Config, line: string)
    requires SetsKey(line, EmailKey)
    ensures ApplyLine(c, line) == c.(userEmail := LineValue(line))
  {
  }

  lemma ServerUrlLineSets(c: Config, line: string)
    requires SetsKey(line, ServerUrlKey)
    ensures ApplyLine(c, line) == c.(serverUrl := LineValue(line))
  {
    KeysDistinct();
  }

  lemma IntervalLineSets(c: Config, line: string)
    requires SetsKey(line, IntervalKey)
    ensures ApplyLine(c, line) == c.(uploadInterval := ParseInt(LineValue(line)))
  {
    KeysDistinct();
  }

  lemma EmptyLineKeeps(c: Config)
    ensures ApplyLine(c, "") == c
  {
    assert Trim("") == "";
  }
}
