/** The text `JSON.stringify(usageData)` produces for the scan result
    `{ daily: [...] }`, which `uploadUsageData` writes to the temporary file
    and uploads. */
module Payload {
  import opened Strings
  import opened DailySummary

  const Quote: char := '"'
  const Backslash: char := '\\'

  function HexDigit(d: nat): (c: char)
    requires d < 16
  {
    if d < 10 then ('0' as int + d) as char else ('a' as int + d - 10) as char
  }

  /** The escape JSON.stringify writes for one character of a string: the
      short escapes for quote, backslash, backspace, tab, line feed, form feed
      and carriage return, `\\u00xx` for the other control characters, the
      character itself otherwise. */
  function EscapeChar(c: char): (r: string)
    ensures |r| >= 1
  {
    if c == Quote then [Backslash, Quote]
    else if c == Backslash then [Backslash, Backslash]
    else if c == '\U{0008}' then [Backslash, 'b']
    else if c == '\t' then [Backslash, 't']
    else if c == '\n' then [Backslash, 'n']
    else if c == '\U{000C}' then [Backslash, 'f']
    else if c == '\r' then [Backslash, 'r']
    else if c < ' ' then [Backslash, 'u', '0', '0', HexDigit(c as int / 16), HexDigit(c as int % 16)]
    else [c]
  }

  function Escape(s: string): (r: string)
    ensures |r| >= |s|
  {
    if s == [] then [] else EscapeChar(s[0]) + Escape(s[1..])
  }

  /** A string value: quoted, its characters escaped. */
  function StringText(s: string): string {
    [Quote] + Escape(s) + [Quote]
  }

  /** A member `"name":value` of an object; the member names used here are
      plain identifiers, which need no escaping. */
  function Member(name: string, value: string): string {
    [Quote] + name + [Quote] + ":" + value
  }

  /** One day's object, its members in the order the source builds it. */
  function EntryText(e: DailyAggregate): string {
    "{" + Join([
      Member("date", StringText(e.date)),
      Member("totalInputTokens", NatToString(e.totalInputTokens)),
      Member("totalOutputTokens", NatToString(e.totalOutputTokens)),
      Member("totalCacheWriteTokens", NatToString(e.totalCacheWriteTokens)),
      Member("totalCacheReadTokens", NatToString(e.totalCacheReadTokens)),
      Member("totalTokens", NatToString(e.totalTokens)),
      Member("requestCount", NatToString(e.requestCount))], ',') + "}"
  }

  function EntryTexts(es: seq<DailyAggregate>): (r: seq<string>)
    ensures |r| == |es|
  {
    if es == [] then [] else [EntryText(es[0])] + EntryTexts(es[1..])
  }

  /** `JSON.stringify({ daily })`. */
  function PayloadText(daily: seq<DailyAggregate>): string {
    "{" + Member("daily", "[" + Join(EntryTexts(daily), ',') + "]") + "}"
  }

  /** The payload is never shorter than `{"daily":[]}`, so the size floor of
      ten characters turns nothing away. */
  lemma PayloadNeverTooSmall(daily: seq<DailyAggregate>)
    ensures |PayloadText(daily)| >= 12
    ensures !(|PayloadText(daily)| < 10)
  {
  }

  // ---------------------------------------------------------------- reading back

  function HexValue(c: char): nat {
    if '0' <= c <= '9' then c as int - '0' as int
    else if 'a' <= c <= 'f' then c as int - 'a' as int + 10
    else 0
  }

  /** The reading of string escapes a JSON parser does, for the escapes
      `EscapeChar` writes. */
  function Unescape(t: string): string
    decreases |t|
  {
    if t == [] then []
    else if t[0] == Backslash && |t| >= 2 then
      var e := t[1];
      if e == 'u' && |t| >= 6 && t[2] == '0' && t[3] == '0' then
        [(16 * (HexValue(t[4]) % 16) + HexValue(t[5]) % 16) as char] + Unescape(t[6..])
      else
        var c := if e == 'b' then '\U{0008}' else if e == 't' then '\t' else if e == 'n' then '\n'
                 else if e == 'f' then '\U{000C}' else if e == 'r' then '\r' else e;
        [c] + Unescape(t[2..])
    else [t[0]] + Unescape(t[1..])
  }

  predicate IsControl(c: char) {
    c < ' ' && c != '\U{0008}' && c != '\t' && c != '\n' && c != '\U{000C}' && c != '\r'
  }

  /** A control character written as `\u00xx` reads back as itself. */
  lemma UnescapeControl(c: char, rest: string)
    requires IsControl(c)
    ensures Unescape(EscapeChar(c) + rest) == [c] + Unescape(rest)
  {
    var t := EscapeChar(c) + rest;
    var hi, lo := c as int / 16, c as int % 16;
    assert HexValue(HexDigit(hi)) == hi && HexValue(HexDigit(lo)) == lo;
    assert t[6..] == rest;
    assert (16 * hi + lo) as char == c;
  }

  /** A character with a two-character escape reads back as itself. */
  lemma UnescapeShort(c: char, rest: string)
    requires !IsControl(c) && |EscapeChar(c)| == 2
    ensures Unescape(EscapeChar(c) + rest) == [c] + Unescape(rest)
  {
    var t := EscapeChar(c) + rest;
    assert t[2..] == rest;
  }

  /** A character written as itself reads back as itself. */
  lemma UnescapePlain(c: char, rest: string)
    requires !IsControl(c) && |EscapeChar(c)| != 2
    ensures Unescape(EscapeChar(c) + rest) == [c] + Unescape(rest)
  {
    var t := EscapeChar(c) + rest;
    assert t[1..] == rest;
  }

  lemma UnescapeChar(c: char, rest: string)
    ensures Unescape(EscapeChar(c) + rest) == [c] + Unescape(rest)
  {
    if IsControl(c) {
      UnescapeControl(c, rest);
    } else if |EscapeChar(c)| == 2 {
      UnescapeShort(c, rest);
    } else {
      UnescapePlain(c, rest);
    }
  }

  /** Escaping loses nothing: reading the escaped text gives back the string. */
  lemma {:induction false} UnescapeEscape(s: string)
    ensures Unescape(Escape(s)) == s
  {
    if s != [] {
      UnescapeEscape(s[1..]);
      UnescapeChar(s[0], Escape(s[1..]));
    }
  }
}
