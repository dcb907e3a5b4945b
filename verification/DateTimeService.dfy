/**
 * The NTP server in the timesyncd configuration: written through a template, read back with the
 * multi-line regular expression /^NTP=(.*)$/m.
 */
module DateTimeService {
  import opened Wrappers
  import opened Strings

  const DEFAULT_TIME_SERVER_POOL := ["0.pool.ntp.org", "1.pool.ntp.org", "2.pool.ntp.org", "3.pool.ntp.org"]

  const NOTE := "# This file  is generated by rpi-nest-api."

  const WARNING := " Do not modify manually!"

  const SECTION := "\n[Time]\n"

  const HEADER := "\n" + NOTE + WARNING + SECTION

  const FOOTER := "\n" + "FallbackNTP=" + Join(DEFAULT_TIME_SERVER_POOL, ' ') + "\n  "

  const NTP_KEY := "NTP="

  function Template(ntpAddress: string): string
  {
    HEADER + NTP_KEY + ntpAddress + FOOTER
  }

  // ------------------------------------------------------------------ the regular expression

  /** What neither `.` matches nor a line holds (section 12.3 of ECMA-262). */
  predicate IsLineTerminator(c: char)
  {
    c == '\n' || c == '\r' || c == '\U{2028}' || c == '\U{2029}'
  }

  /** `^NTP=` matches at position i. */
  predicate MatchesAt(text: string, i: nat)
  {
    && i + |NTP_KEY| <= |text|
    && (i == 0 || IsLineTerminator(text[i - 1]))
    && text[i] == NTP_KEY[0] && text[i + 1] == NTP_KEY[1] && text[i + 2] == NTP_KEY[2] && text[i + 3] == NTP_KEY[3]
  }

  /** What `(.*)$` captures: everything up to the first line terminator. */
  function FirstLine(s: string): (line: string)
    ensures forall k :: 0 <= k < |line| ==> !IsLineTerminator(line[k])
    ensures line <= s && (|line| < |s| ==> IsLineTerminator(s[|line|]))
  {
    if s == "" || IsLineTerminator(s[0]) then "" else [s[0]] + FirstLine(s[1..])
  }

  /** The first position from i on at which the expression matches. */
  function FirstMatch(text: string, i: nat): (m: Option<nat>)
    ensures m.Some? ==> i <= m.value && MatchesAt(text, m.value) && forall k :: i <= k < m.value ==> !MatchesAt(text, k)
    ensures m.None? ==> forall k :: i <= k ==> !MatchesAt(text, k)
    decreases |text| - i
  {
    if i >= |text| then None
    else if MatchesAt(text, i) then Some(i)
    else FirstMatch(text, i + 1)
  }

  /** The captured group of the first match. */
  function ReadAddress(text: string): Option<string>
  {
    var m := FirstMatch(text, 0);
    if m.None? then None else Some(FirstLine(text[m.value + |NTP_KEY|..]))
  }

  // ------------------------------------------------------------------ the service

  class Service {
    var config: Option<string>       // the configuration file, if there is one
    var isNtpEnabled: bool

    constructor (config: Option<string>, isNtpEnabled: bool)
      ensures this.config == config && this.isNtpEnabled == isNtpEnabled
    {
      this.config, this.isNtpEnabled := config, isNtpEnabled;
    }

    /** `restarts` tells whether systemd restarts the unit; if not, the call ends before NTP is switched. */
    method SetNtp(ntpServer: Option<string>, enable: bool, restarts: bool) returns (ok: bool)
      modifies this
      ensures config == ConfigAfter(old(config), ntpServer)
      ensures ntpServer == None || ntpServer == Some("") ==> ok && config == old(config)
      ensures ntpServer != None && ntpServer != Some("") ==> (ok <==> restarts) && config == Some(Template(ntpServer.value))
      ensures isNtpEnabled == if ok then enable else old(isNtpEnabled)
    {
      if ntpServer.Some? && ntpServer.value != "" {
        config := Some(Template(ntpServer.value));
        if !restarts {
          return false;
        }
      }
      isNtpEnabled := enable;
      ok := true;
    }

    /** An unreadable file counts as no address. */
    method GetNtpAddressFromConfig() returns (address: Option<string>)
      ensures address == AddressIn(config)
    {
      if config.None? {
        return None;
      }
      address := ReadAddress(config.value);
    }
  }

  predicate Writes(ntpServer: Option<string>)
  {
    ntpServer.Some? && ntpServer.value != ""
  }

  function ConfigAfter(config: Option<string>, ntpServer: Option<string>): Option<string>
  {
    if Writes(ntpServer) then Some(Template(ntpServer.value)) else config
  }

  function AddressIn(config: Option<string>): Option<string>
  {
    if config.None? then None else ReadAddress(config.value)
  }

  // ------------------------------------------------------------------ round trip

  lemma HeaderHasNoKey()
    ensures forall k :: 0 <= k < |HEADER| ==> HEADER[k] != 'N'
    ensures HEADER != "" && HEADER[|HEADER| - 1] == '\n'
    ensures FOOTER != "" && FOOTER[0] == '\n'
  {
    assert forall k :: 0 <= k < |NOTE| ==> NOTE[k] != 'N';
    assert forall k :: 0 <= k < |WARNING| ==> WARNING[k] != 'N';
    assert forall k :: 0 <= k < |SECTION| ==> SECTION[k] != 'N';
    hide NOTE, WARNING, Join;
  }

  lemma KeyMatches(text: string, header: string, rest: string)
    requires header != "" && IsLineTerminator(header[|header| - 1])
    requires forall k :: 0 <= k < |header| ==> header[k] != 'N'
    requires text == header + NTP_KEY + rest
    ensures FirstMatch(text, 0) == Some(|header|)
  {
    assert forall k :: 0 <= k < |header| ==> text[k] == header[k];
    assert forall k :: 0 <= k < |NTP_KEY| ==> text[|header| + k] == NTP_KEY[k];
    assert MatchesAt(text, |header|);
  }

  /** The key's own line is the first match: neither the comment nor FallbackNTP is taken for it. */
  lemma TemplateMatchesAfterHeader(address: string)
    ensures FirstMatch(Template(address), 0) == Some(|HEADER|)
  {
    HeaderHasNoKey();
    hide HEADER, FOOTER;
    assert HEADER + NTP_KEY + address + FOOTER == HEADER + NTP_KEY + (address + FOOTER);
    KeyMatches(Template(address), HEADER, address + FOOTER);
  }

  /** The line of the key ends where the address does, or inside it. */
  lemma {:induction false} LineOfAddress(address: string, foot: string)
    requires foot != "" && IsLineTerminator(foot[0])
    ensures FirstLine(address + foot) == FirstLine(address)
  {
    if address != "" {
      assert (address + foot)[1..] == address[1..] + foot;
      LineOfAddress(address[1..], foot);
    }
  }

  /** What the template stores reads back up to the first line terminator. */
  lemma ReadOfTemplate(address: string)
    ensures ReadAddress(Template(address)) == Some(FirstLine(address))
  {
    TemplateMatchesAfterHeader(address);
    HeaderHasNoKey();
    hide HEADER, FOOTER, FirstLine;
    var head := HEADER + NTP_KEY;
    assert Template(address) == head + (address + FOOTER);
    assert Template(address)[|head|..] == address + FOOTER;
    LineOfAddress(address, FOOTER);
  }

  /** The round trip is exact for exactly the addresses without a line terminator. */
  lemma RoundTripIff(address: string)
    ensures ReadAddress(Template(address)) == Some(address) <==>
              '\n' !in address && '\r' !in address && '\U{2028}' !in address && '\U{2029}' !in address
  {
    ReadOfTemplate(address);
    hide ReadAddress, Template;
    var line := FirstLine(address);
    assert |line| == |address| ==> line == address;
    assert |line| < |address| ==> address[|line|] in address;
  }

  // ------------------------------------------------------------------ over runs

  function ConfigAfterAll(config: Option<string>, servers: seq<Option<string>>): Option<string>
  {
    if servers == [] then config else ConfigAfter(ConfigAfterAll(config, servers[..|servers| - 1]), servers[|servers| - 1])
  }

  /** The last address given that was not empty. */
  function LastWritten(servers: seq<Option<string>>): Option<string>
  {
    if servers == [] then None
    else if Writes(servers[|servers| - 1]) then servers[|servers| - 1]
    else LastWritten(servers[..|servers| - 1])
  }

  /** After any sequence of calls the last non-empty address is read, or what was there at the start. */
  lemma {:induction false} ReadsLastWritten(config: Option<string>, servers: seq<Option<string>>)
    ensures AddressIn(ConfigAfterAll(config, servers)) ==
            if LastWritten(servers).Some? then Some(FirstLine(LastWritten(servers).value)) else AddressIn(config)
    decreases |servers|
  {
    hide Template, ReadAddress, FirstLine;
    if servers != [] {
      ReadsLastWritten(config, servers[..|servers| - 1]);
      if Writes(servers[|servers| - 1]) { ReadOfTemplate(servers[|servers| - 1].value); }
    }
  }

  // ------------------------------------------------------------------ the file, line by line

  function Lines(address: string, pool: string): seq<string>
  {
    ["", "# This file  is generated by rpi-nest-api." + " Do not modify manually!", "[Time]", "NTP=" + address, "FallbackNTP=" + pool, "  "]
  }

  /** What is written, line by line, for an address on one line. */
  lemma TemplateLines(address: string)
    requires '\n' !in address
    ensures Split(Template(address), '\n') ==
              Lines(address, "0.pool.ntp.org" + [' '] + ("1.pool.ntp.org" + [' '] + ("2.pool.ntp.org" + [' '] + "3.pool.ntp.org")))
  {
    var pool := Join(DEFAULT_TIME_SERVER_POOL, ' ');
    PoolIsLiteral();
    LinesAreFree(address, pool);
    TemplateJoins(address);
    hide Template, Lines, Join;
    SplitOfJoin(Lines(address, pool), '\n');
  }

  lemma PoolIsLiteral()
    ensures Join(DEFAULT_TIME_SERVER_POOL, ' ') == "0.pool.ntp.org" + [' '] + ("1.pool.ntp.org" + [' '] + ("2.pool.ntp.org" + [' '] + "3.pool.ntp.org"))
    ensures '\n' !in Join(DEFAULT_TIME_SERVER_POOL, ' ')
  {
    var a, b, c, d := "0.pool.ntp.org", "1.pool.ntp.org", "2.pool.ntp.org", "3.pool.ntp.org";
    assert '\n' !in a && '\n' !in b && '\n' !in c && '\n' !in d;
    JoinOfFour(a, b, c, d, ' ');
    hide Join;
    NoneIn(a, b, c, d, ' ', '\n');
  }

  lemma NoneIn(a: string, b: string, c: string, d: string, sep: char, x: char)
    requires x !in a && x !in b && x !in c && x !in d && x != sep
    ensures x !in a + [sep] + (b + [sep] + (c + [sep] + d))
  {
  }

  lemma LinesAreFree(address: string, pool: string)
    requires '\n' !in address && '\n' !in pool
    ensures AllFree(Lines(address, pool), '\n')
  {
    var lines := Lines(address, pool);
    var note, warning := "# This file  is generated by rpi-nest-api.", " Do not modify manually!";
    assert '\n' !in note && '\n' !in warning;
    assert '\n' !in "NTP=" && '\n' !in "FallbackNTP=" && '\n' !in "[Time]" && '\n' !in "  ";
    assert '\n' !in lines[1] && '\n' !in lines[3] && '\n' !in lines[4];
  }

  lemma TemplateJoins(address: string)
    ensures Template(address) == Join(Lines(address, Join(DEFAULT_TIME_SERVER_POOL, ' ')), '\n')
  {
    var pool := Join(DEFAULT_TIME_SERVER_POOL, ' ');
    var time, key, fallback, end := "[Time]", NTP_KEY + address, "FallbackNTP=" + pool, "  ";
    hide Join;
    JoinOfSix("", NOTE + WARNING, time, key, fallback, end, '\n');
    assert SECTION == ['\n'] + time + ['\n'] && "\n" == ['\n'] && "\n  " == ['\n'] + end;
    hide NOTE, WARNING, SECTION;
    Layout(NOTE, WARNING, time, address, pool, end);
  }

  /** The template's pieces are the lines' pieces. */
  lemma Layout(note: string, warning: string, time: string, address: string, pool: string, end: string)
    ensures var n := ['\n'];
            n + note + warning + (n + time + n) + NTP_KEY + address + (n + "FallbackNTP=" + pool + (n + end))
            == "" + n + ((note + warning) + n + (time + n + ((NTP_KEY + address) + n + (("FallbackNTP=" + pool) + n + end))))
  {
  }

  // ------------------------------------------------------------------ any file

  predicate LineStartsAt(text: string, k: nat)
  {
    k <= |text| && (k == 0 || text[k - 1] in {'\n', '\r', '\U{2028}', '\U{2029}'})
  }

  predicate KeyAt(text: string, k: nat)
  {
    LineStartsAt(text, k) && "NTP=" <= text[k..]
  }

  lemma KeyAtIffMatches(text: string, k: nat)
    ensures KeyAt(text, k) <==> MatchesAt(text, k)
  {
  }

  /** The first line that begins with the key, in any file: the address is the rest of that line, and there is none without such a line. */
  lemma ReadsFirstKeyLine(text: string)
    ensures ReadAddress(text).None? <==> forall k: nat :: !KeyAt(text, k)
    ensures ReadAddress(text).Some? ==>
              exists k: nat :: IsFirstKey(text, k) && RestOfLine(text, k + 4, ReadAddress(text).value)
  {
    forall k: nat ensures KeyAt(text, k) <==> MatchesAt(text, k) { KeyAtIffMatches(text, k); }
    hide MatchesAt, KeyAt, FirstLine;
    var m := FirstMatch(text, 0);
    if m.Some? { assert IsFirstKey(text, m.value) && RestOfLine(text, m.value + 4, ReadAddress(text).value); }
  }

  ghost predicate IsFirstKey(text: string, k: nat)
  {
    KeyAt(text, k) && forall j: nat :: j < k ==> !KeyAt(text, j)
  }

  /** The text from here on up to the next line terminator, or to the end. */
  predicate RestOfLine(text: string, from: nat, line: string)
  {
    && from + |line| <= |text| && text[from..from + |line|] == line
    && (forall i :: 0 <= i < |line| ==> line[i] !in {'\n', '\r', '\U{2028}', '\U{2029}'})
    && (from + |line| < |text| ==> text[from + |line|] in {'\n', '\r', '\U{2028}', '\U{2029}'})
  }
}
