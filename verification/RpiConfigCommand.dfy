/** Supported raspi-config features and their states, read from the tool's text output. */
module RpiConfigCommand {
  import opened Wrappers
  import opened Strings

  datatype ConfigurationState = ConfigurationState(isAvailable: bool, isEnabled: bool)

  datatype CommandError = InvalidConfiguration | UsageReturned | UnexpectedValue(text: string)

  /** raspi-config's answer to an argument list. */
  type Tool = seq<string> -> string

  const PHRASE := "Supported features: "

  // ------------------------------------------------------------------ text helpers

  /** The text after the first occurrence of the phrase, if it occurs. */
  function After(s: string, phrase: string): Option<string>
  {
    if |s| < |phrase| then None
    else if s[..|phrase|] == phrase then Some(s[|phrase|..])
    else if s == "" then None
    else After(s[1..], phrase)
  }

  /** The text before the first occurrence of the phrase. */
  function Before(s: string, phrase: string): string
  {
    if |s| < |phrase| || s == "" then s
    else if s[..|phrase|] == phrase then ""
    else [s[0]] + Before(s[1..], phrase)
  }

  function Without(s: string, c: char): (r: string)
    ensures c !in r
    ensures c !in s ==> r == s
  {
    if s == "" then "" else (if s[0] == c then "" else [s[0]]) + Without(s[1..], c)
  }

  function NonEmpty(parts: seq<string>): (r: seq<string>)
    ensures forall i :: 0 <= i < |r| ==> r[i] != "" && r[i] in parts
    ensures (forall i :: 0 <= i < |parts| ==> parts[i] != "") ==> r == parts
  {
    if parts == [] then [] else (if parts[0] == "" then [] else [parts[0]]) + NonEmpty(parts[1..])
  }

  /** White space and line terminators (sections 12.2 and 12.3 of ECMA-262). */
  predicate IsSpace(c: char)
  {
    || c == ' ' || '\t' <= c <= '\r' || c == '\U{A0}' || c == '\U{1680}' || '\U{2000}' <= c <= '\U{200A}'
    || c == '\U{2028}' || c == '\U{2029}' || c == '\U{202F}' || c == '\U{205F}' || c == '\U{3000}' || c == '\U{FEFF}'
  }

  function Trim(s: string): string
  {
    if s == "" then ""
    else if IsSpace(s[0]) then Trim(s[1..])
    else if IsSpace(s[|s| - 1]) then Trim(s[..|s| - 1])
    else s
  }

  // ------------------------------------------------------------------ the service

  class Service {
    const tool: Tool

    constructor (tool: Tool)
      ensures this.tool == tool
    {
      this.tool := tool;
    }

    /** Spawned without arguments the tool prints its usage. */
    method GetSupportedConfigurations() returns (ids: seq<string>)
      ensures ids == SupportedIds(tool([]))
    {
      var features := After(tool([]), PHRASE);
      if features.None? {
        return [];
      }
      ids := NonEmpty(Split(Without(Before(features.value, PHRASE), '\n'), ' '));
    }

    /** Builds the argument list by pushing, and refuses an empty id and a usage message. */
    method ExecuteCommand(command: string, id: string, value: Option<string>) returns (r: Result<string, CommandError>)
      ensures r == Executed(tool, command, id, value)
    {
      if id == "" {
        return Err(InvalidConfiguration);
      }
      var args := [command, id];
      if value.Some? && value.value != "" {
        args := args + [value.value];
      }
      assert args == Arguments(command, id, value);
      var output := tool(args);
      if "Usage:" <= output {
        return Err(UsageReturned);
      }
      r := Ok(Trim(output));
    }

    method GetConfigurationStates(ids: seq<string>) returns (r: Result<seq<ConfigurationState>, CommandError>)
      ensures r == States(tool, ids)
    {
      var resultString := ExecuteCommand("availstat", Join(ids, ' '), None);
      if resultString.Err? {
        return Err(resultString.error);
      }
      r := ParseAll(Split(resultString.value, ' '));
    }

    /** One entry per id, with the state at the same index if there is one. */
    method GetAllSupportedConfigurations() returns (r: Result<seq<(string, Option<ConfigurationState>)>, CommandError>)
      ensures r == AllSupported(tool)
    {
      var ids := GetSupportedConfigurations();
      var results := GetConfigurationStates(ids);
      if results.Err? {
        return Err(results.error);
      }
      r := Ok(Zip(ids, results.value));
    }
  }

  function ParseStatus(result: string): Result<ConfigurationState, CommandError>
  {
    if result == "1" then Ok(ConfigurationState(true, true))
    else if result == "0" then Ok(ConfigurationState(true, false))
    else if result == "2" then Ok(ConfigurationState(false, false))
    else Err(UnexpectedValue(result))
  }

  /** Maps the parser over the list; the first unexpected value throws. */
  function ParseAll(results: seq<string>): Result<seq<ConfigurationState>, CommandError>
  {
    if results == [] then Ok([])
    else
      match ParseStatus(results[0])
      case Err(e) => Err(e)
      case Ok(state) =>
        match ParseAll(results[1..])
        case Err(e) => Err(e)
        case Ok(states) => Ok([state] + states)
  }

  function SupportedIds(usage: string): seq<string>
  {
    var features := After(usage, PHRASE);
    if features.None? then [] else NonEmpty(Split(Without(Before(features.value, PHRASE), '\n'), ' '))
  }

  /** An empty value counts as none. */
  function Arguments(command: string, id: string, value: Option<string>): seq<string>
  {
    if value.Some? && value.value != "" then [command, id, value.value] else [command, id]
  }

  function Executed(tool: Tool, command: string, id: string, value: Option<string>): Result<string, CommandError>
  {
    if id == "" then Err(InvalidConfiguration)
    else
      var output := tool(Arguments(command, id, value));
      if "Usage:" <= output then Err(UsageReturned) else Ok(Trim(output))
  }

  function States(tool: Tool, ids: seq<string>): Result<seq<ConfigurationState>, CommandError>
  {
    match Executed(tool, "availstat", Join(ids, ' '), None)
    case Err(e) => Err(e)
    case Ok(text) => ParseAll(Split(text, ' '))
  }

  function Zip(ids: seq<string>, states: seq<ConfigurationState>): seq<(string, Option<ConfigurationState>)>
  {
    seq(|ids|, i requires 0 <= i < |ids| => (ids[i], if i < |states| then Some(states[i]) else None))
  }

  function AllSupported(tool: Tool): Result<seq<(string, Option<ConfigurationState>)>, CommandError>
  {
    var ids := SupportedIds(tool([]));
    match States(tool, ids)
    case Err(e) => Err(e)
    case Ok(states) => Ok(Zip(ids, states))
  }

  // ------------------------------------------------------------------ a tool that answers word by word

  datatype Status = Disabled | Enabled | NotAvailable

  function Digit(s: Status): char
  {
    match s case Disabled => '0' case Enabled => '1' case NotAvailable => '2'
  }

  function StateOf(s: Status): ConfigurationState
  {
    ConfigurationState(!s.NotAvailable?, s.Enabled?)
  }

  function DigitList(words: seq<string>, device: string -> Status): (r: seq<string>)
    ensures |r| == |words| && forall i :: 0 <= i < |words| ==> r[i] == [Digit(device(words[i]))]
  {
    if words == [] then [] else [[Digit(device(words[0]))]] + DigitList(words[1..], device)
  }

  function StateList(words: seq<string>, device: string -> Status): (r: seq<ConfigurationState>)
    ensures |r| == |words| && forall i :: 0 <= i < |words| ==> r[i] == StateOf(device(words[i]))
  {
    if words == [] then [] else [StateOf(device(words[0]))] + StateList(words[1..], device)
  }

  /** The digits of the words, separated by spaces. */
  function Digits(words: seq<string>, device: string -> Status): string
  {
    Join(DigitList(words, device), ' ')
  }

  /** The shell splits the joined ids into words; the tool prints one digit for each and ends the line. */
  ghost predicate Answers(tool: Tool, device: string -> Status)
  {
    forall ids :: tool(["availstat", ids]) == Digits(NonEmpty(Split(ids, ' ')), device) + "\n"
  }

  // ------------------------------------------------------------------ properties

  /** Ids read from the usage text are never empty and hold no space and no newline. */
  lemma SupportedIdsAreWords(usage: string)
    ensures forall i :: 0 <= i < |SupportedIds(usage)| ==>
              SupportedIds(usage)[i] != "" && ' ' !in SupportedIds(usage)[i] && '\n' !in SupportedIds(usage)[i]
  {
    var features := After(usage, PHRASE);
    if features.Some? {
      var text := Without(Before(features.value, PHRASE), '\n');
      SplitIsFree(text, ' ');
      PiecesAreFree(text, ' ', '\n');
      var parts := Split(text, ' ');
      forall id | id in NonEmpty(parts) ensures ' ' !in id && '\n' !in id {
        var k :| 0 <= k < |parts| && parts[k] == id;
      }
    }
  }

  lemma {:induction false} DigitsParse(words: seq<string>, device: string -> Status)
    ensures ParseAll(DigitList(words, device)) == Ok(StateList(words, device))
  {
    if words != [] {
      DigitsParse(words[1..], device);
      assert DigitList(words, device)[1..] == DigitList(words[1..], device);
      hide DigitList, StateList;
    }
  }

  lemma {:induction false} DigitsEnds(words: seq<string>, device: string -> Status)
    requires words != []
    ensures var s := Digits(words, device);
            s != "" && !IsSpace(s[0]) && !IsSpace(s[|s| - 1]) && s[0] != 'U'
  {
    var digits := DigitList(words, device);
    if |words| > 1 {
      DigitsEnds(words[1..], device);
      JoinHead(digits[0], DigitList(words[1..], device), ' ');
    }
  }

  lemma TrimOfLine(s: string)
    requires s != "" && !IsSpace(s[0]) && !IsSpace(s[|s| - 1])
    ensures Trim(s + "\n") == s
  {
    assert (s + "\n")[..|s|] == s;
    assert Trim(s) == s;
  }

  /**
   * Main result: with a tool that answers word by word, any non-empty list of non-empty, space-free
   * ids gets back each id's own state at its index.
   */
  lemma StatesOfWords(tool: Tool, device: string -> Status, ids: seq<string>)
    requires Answers(tool, device)
    requires ids != [] && forall i :: 0 <= i < |ids| ==> ids[i] != "" && ' ' !in ids[i]
    ensures States(tool, ids) == Ok(StateList(ids, device))
  {
    hide Executed, Join, Split, ParseAll, Answers, NonEmpty, Trim, AllFree, DigitList, StateList;
    AnswerToWords(tool, device, ids);
    DigitsAreFree(ids, device);
    DigitsParse(ids, device);
    SplitOfJoin(DigitList(ids, device), ' ');
  }

  lemma DigitsAreFree(words: seq<string>, device: string -> Status)
    ensures AllFree(DigitList(words, device), ' ')
  {
    hide DigitList;
    forall i | 0 <= i < |words| ensures ' ' !in DigitList(words, device)[i] {
      assert DigitList(words, device)[i] == [Digit(device(words[i]))];
    }
  }

  lemma AnswerToWords(tool: Tool, device: string -> Status, ids: seq<string>)
    requires Answers(tool, device)
    requires ids != [] && forall i :: 0 <= i < |ids| ==> ids[i] != "" && ' ' !in ids[i]
    ensures Executed(tool, "availstat", Join(ids, ' '), None) == Ok(Digits(ids, device))
  {
    hide Join, Split, NonEmpty, Digits, Trim;
    var joined := Join(ids, ' ');
    SplitOfJoin(ids, ' ');
    JoinIsNotEmpty(ids, ' ');
    ToolSays(tool, device, joined);
    hide Answers;
    DigitsEnds(ids, device);
    TrimOfLine(Digits(ids, device));
    NotUsage(Digits(ids, device) + "\n");
  }

  lemma ToolSays(tool: Tool, device: string -> Status, ids: string)
    requires Answers(tool, device)
    ensures tool(Arguments("availstat", ids, None)) == Digits(NonEmpty(Split(ids, ' ')), device) + "\n"
  {
    hide Digits, NonEmpty, Split;
  }

  lemma NotUsage(s: string)
    requires s != "" && s[0] != 'U'
    ensures !("Usage:" <= s)
  {
    assert "Usage:"[0] == 'U';
  }

  lemma JoinIsNotEmpty(parts: seq<string>, c: char)
    requires parts != [] && parts[0] != ""
    ensures Join(parts, c) != ""
  {
  }

  /** End to end: every supported id is listed with its own state; an empty list of ids is refused. */
  lemma EverySupportedHasItsState(tool: Tool, device: string -> Status)
    requires Answers(tool, device)
    ensures var ids := SupportedIds(tool([]));
            if ids == [] then AllSupported(tool) == Err(InvalidConfiguration)
            else
              && AllSupported(tool).Ok? && |AllSupported(tool).value| == |ids|
              && forall i :: 0 <= i < |ids| ==> AllSupported(tool).value[i] == (ids[i], Some(StateOf(device(ids[i]))))
  {
    var ids := SupportedIds(tool([]));
    SupportedIdsAreWords(tool([]));
    hide SupportedIds, Answers;
    if ids != [] {
      StatesOfWords(tool, device, ids);
      hide States;
    }
  }

  // ------------------------------------------------------------------ what the texts say

  /** The phrase occurs at this position. */
  predicate OccursAt(s: string, phrase: string, k: nat)
  {
    k + |phrase| <= |s| && s[k..k + |phrase|] == phrase
  }

  lemma {:induction false} AfterFirst(head: string, phrase: string, rest: string)
    requires phrase != "" && forall k: nat :: k < |head| ==> !OccursAt(head + phrase + rest, phrase, k)
    ensures After(head + phrase + rest, phrase) == Some(rest)
  {
    var s := head + phrase + rest;
    if head == "" {
      assert s[..|phrase|] == phrase && s[|phrase|..] == rest;
    } else {
      assert s[1..] == head[1..] + phrase + rest;
      forall k: nat | k < |head[1..]| ensures !OccursAt(head[1..] + phrase + rest, phrase, k) {
        assert !OccursAt(s, phrase, k + 1);
        assert k + 1 + |phrase| <= |s| ==> s[1..][k..k + |phrase|] == s[k + 1..k + 1 + |phrase|];
      }
      AfterFirst(head[1..], phrase, rest);
      assert !OccursAt(s, phrase, 0);
      assert |s| >= |phrase| && s[..|phrase|] == s[0..0 + |phrase|];
    }
  }

  lemma {:induction false} NothingAfter(s: string, phrase: string)
    requires phrase != "" && forall k: nat :: !OccursAt(s, phrase, k)
    ensures After(s, phrase).None? && Before(s, phrase) == s
  {
    assert !OccursAt(s, phrase, 0);
    if |s| >= |phrase| {
      assert s[..|phrase|] == s[0..0 + |phrase|];
      forall k: nat ensures !OccursAt(s[1..], phrase, k) {
        assert !OccursAt(s, phrase, k + 1);
        assert k + 1 + |phrase| <= |s| ==> s[1..][k..k + |phrase|] == s[k + 1..k + 1 + |phrase|];
      }
      NothingAfter(s[1..], phrase);
    }
  }

  lemma {:induction false} WithoutJoins(a: string, b: string, c: char)
    ensures Without(a + b, c) == Without(a, c) + Without(b, c)
  {
    if a == "" {
      assert a + b == b;
    } else {
      assert (a + b)[1..] == a[1..] + b;
      WithoutJoins(a[1..], b, c);
    }
  }

  lemma {:induction false} NonEmptyJoins(a: seq<string>, b: seq<string>)
    ensures NonEmpty(a + b) == NonEmpty(a) + NonEmpty(b)
  {
    if a == [] {
      assert a + b == b;
    } else {
      assert (a + b)[1..] == a[1..] + b;
      NonEmptyJoins(a[1..], b);
    }
  }

  /** The blanks between words, of whatever number, do not show. */
  lemma NonEmptyDropsBlanks(s: string)
    ensures NonEmpty([s]) == if s == "" then [] else [s]
  {
    assert [s][1..] == [];
  }

  /** A line break is taken out, so that the words it parts become one. */
  lemma BrokenLine(a: string, b: string)
    requires '\n' !in a && '\n' !in b
    ensures Without(a + ['\n'] + b, '\n') == a + b
  {
    assert Without(['\n'], '\n') == "";
    WithoutJoins(a + ['\n'], b, '\n');
    WithoutJoins(a, ['\n'], '\n');
    hide Without;
  }

  /**
   * Which words are listed: those that follow the phrase where it first occurs, in their order, blanks
   * left out.
   */
  lemma SupportedIdsAreListed(usage: string, head: string, phrase: string, rest: string, pieces: seq<string>)
    requires phrase == "Supported features: " && usage == head + phrase + rest && rest == Join(pieces, ' ') + ['\n']
    requires forall k: nat :: k < |head| ==> !OccursAt(usage, phrase, k)
    requires forall k: nat :: !OccursAt(rest, phrase, k)
    requires pieces != [] && AllFree(pieces, ' ') && AllFree(pieces, '\n')
    ensures SupportedIds(usage) == NonEmpty(pieces)
  {
    assert phrase == PHRASE && |phrase| == 20;
    hide After, Before, Without, Split, Join, NonEmpty, PHRASE, OccursAt;
    AfterFirst(head, phrase, rest);
    NothingAfter(rest, phrase);
    JoinIsFree(pieces, ' ', '\n');
    BrokenLine(Join(pieces, ' '), "");
    assert rest + "" == rest && Join(pieces, ' ') + "" == Join(pieces, ' ');
    SplitOfJoin(pieces, ' ');
  }

  lemma NoPhraseNoIds(usage: string, phrase: string)
    requires phrase == "Supported features: " && forall k: nat :: !OccursAt(usage, phrase, k)
    ensures SupportedIds(usage) == []
  {
    assert phrase == PHRASE && |phrase| == 20;
    hide PHRASE, OccursAt, After;
    NothingAfter(usage, phrase);
  }

  /** Trimming takes white space off both ends and nothing else. */
  lemma {:induction false} TrimTakesEndsOff(s: string) returns (before: string, after: string)
    ensures s == before + Trim(s) + after
    ensures (forall i :: 0 <= i < |before| ==> IsSpace(before[i])) && (forall i :: 0 <= i < |after| ==> IsSpace(after[i]))
    ensures var t := Trim(s); t != "" ==> !IsSpace(t[0]) && !IsSpace(t[|t| - 1])
    decreases |s|
  {
    hide IsSpace;
    if s == "" {
      before, after := "", "";
    } else if IsSpace(s[0]) {
      before, after := TrimTakesEndsOff(s[1..]);
      before := [s[0]] + before;
      assert s == [s[0]] + s[1..];
    } else if IsSpace(s[|s| - 1]) {
      before, after := TrimTakesEndsOff(s[..|s| - 1]);
      after := after + [s[|s| - 1]];
      assert s == s[..|s| - 1] + [s[|s| - 1]];
    } else {
      before, after := "", "";
    }
  }

  /** What the tool is asked, and what becomes of its answer. */
  lemma ExecutesAs(tool: Tool, command: string, id: string, value: Option<string>)
    ensures var asked := tool(if value == None || value == Some("") then [command, id] else [command, id, value.value]);
            Executed(tool, command, id, value) ==
              if id == "" then Err(InvalidConfiguration)
              else if "Usage:" <= asked then Err(UsageReturned)
              else Ok(Trim(asked))
  {
  }

  /** The three digits the tool documents, and no other text. */
  lemma StatusMeans(result: string)
    ensures ParseStatus(result) ==
              if result == "2" then Ok(ConfigurationState(false, false))
              else if result == "0" then Ok(ConfigurationState(true, false))
              else if result == "1" then Ok(ConfigurationState(true, true))
              else Err(UnexpectedValue(result))
  {
  }
}
