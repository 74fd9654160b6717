/**
 * `LineParser` (src/lib/LineParser.ts): the usages of resources on one line
 * of a function file or of a command string, recorded by type and
 * identifier: the calls the command regexes find and the `type=` arguments of
 * entity selectors.
 *
 * The regexes are not modelled: what `matchAll` finds on the line is given
 * with the line (each match's index and groups). `removeEndingQuote` is not
 * part of this model and enters as a function.
 */
module LineParser {
  import opened Base
  import opened OrderedMap

  /** `SupportedTypes`: five file types and the `ServerEntityEvents` data type. */
  datatype UsageType = FileUsage(fileType: FileType) | ServerEntityEvents

  /** `LineInfo`: where a usage is and whether it becomes a link. */
  datatype LineInfo = LineInfo(range: Range, link: bool)

  /** `Usage`: type to identifier to the usages of that identifier, all in insertion order. */
  type Usages = OMap<UsageType, OMap<string, seq<LineInfo>>>

  /** A supported command: its type, the commands its regexes match (one regex each) and `link`. */
  datatype Command = Command(type_: UsageType, commands: seq<string>, link: bool)

  /** `supportedCommands`, in order. */
  const SupportedCommands: seq<Command> := [
    Command(FileUsage(McFunction), ["function"], true),
    Command(FileUsage(Particle), ["particle"], true),
    Command(ServerEntityEvents, ["event entity"], true),
    Command(FileUsage(ServerEntityIdentifier), ["summon"], true),
    Command(FileUsage(Animation), ["playanimation"], true),
    Command(FileUsage(Dialogue), ["dialogue open", "dialogue change"], true),
    Command(FileUsage(SoundEffect), ["playsound", "stopsound"], false)
  ]

  /** A supported selector argument: the type it records, its key and `link`. */
  datatype SelectorRule = SelectorRule(type_: UsageType, prefix: string, link: bool)

  /** `supportedSelectors`. */
  const SupportedSelectors: seq<SelectorRule> := [
    SelectorRule(FileUsage(ServerEntityIdentifier), "type", false)
  ]

  /** A regex match: `match.index` and the match array (the whole match, then the groups). */
  datatype Match = Match(index: int, groups: seq<string>)

  /** A match of the selector-arguments regex: its index and its group, `undefined` when it took no part. */
  datatype SelectorMatch = SelectorMatch(index: int, arguments: Option<string>)

  /**
   * A `TextLine` and what the regexes find on its content:
   * `commandMatches(c, r)` is `matchAll` of regex `r` of supported command `c`.
   */
  datatype Line = Line(
    lineNumber: int,
    text: string,
    firstNonWhitespace: int,
    commandMatches: (nat, nat) -> seq<Match>,
    selectorMatches: seq<SelectorMatch>)

  /** The line's content from its first non-white-space character. */
  function Content(line: Line): string {
    Substring(line.text, line.firstNonWhitespace, |line.text|)
  }

  /** `isValidLine`: the content is not a comment (`#`, `//` or `*`). */
  predicate IsValidLine(content: string) {
    !(StartsWith(content, "#") || StartsWith(content, "//") || StartsWith(content, "*"))
  }

  // ---------------------------------------------------------------------------
  // Recording usages
  // ---------------------------------------------------------------------------

  /** The usages of `id` recorded under type `t`, none when either is absent. */
  function UsagesOf(u: Usages, t: UsageType, id: string): seq<LineInfo> {
    GetOr(GetOr(u, t, []), id, [])
  }

  /** `if (!usages.has(t)) usages.set(t, new Map())` */
  function Init(u: Usages, t: UsageType): Usages {
    if t in Keys(u) then u else Put(u, t, [])
  }

  /** `entries.set(id, [...(entries.get(id) || []), info])` on the entries of `t`. */
  function Record(u: Usages, t: UsageType, id: string, info: LineInfo): Usages {
    var entries := GetOr(u, t, []);
    Put(u, t, Put(entries, id, GetOr(entries, id, []) + [info]))
  }

  /** From `u` to `u'`, type `t` keeps its entry and the usages of `id` under `t` keep their prefix. */
  predicate Kept(u: Usages, u': Usages, t: UsageType, id: string) {
    (t in Keys(u) ==> t in Keys(u')) && UsagesOf(u, t, id) <= UsagesOf(u', t, id)
  }

  lemma {:induction false} KeptTransitive(u: Usages, u': Usages, u'': Usages, t: UsageType, id: string)
    requires Kept(u, u', t, id) && Kept(u', u'', t, id)
    ensures Kept(u, u'', t, id)
  {
  }

  /** Initialising a type leaves every list as it was. */
  lemma {:induction false} InitKeeps(u: Usages, t: UsageType, t': UsageType, id: string)
    ensures UsagesOf(Init(u, t), t', id) == UsagesOf(u, t', id)
    ensures Kept(u, Init(u, t), t', id)
    ensures t in Keys(Init(u, t))
  {
    if t !in Keys(u) {
      GetKeys(u, t);
      PutGet(u, t, [], t');
      PutKeys(u, t, []);
    }
  }

  /** Recording appends to the one list it names and changes no other. */
  lemma {:induction false} RecordAppends(u: Usages, t: UsageType, id: string, info: LineInfo, t': UsageType, id': string)
    ensures UsagesOf(Record(u, t, id, info), t', id') ==
      if (t', id') == (t, id) then UsagesOf(u, t, id) + [info] else UsagesOf(u, t', id')
    ensures Kept(u, Record(u, t, id, info), t', id')
  {
    var entries := GetOr(u, t, []);
    var entries' := Put(entries, id, GetOr(entries, id, []) + [info]);
    PutGet(u, t, entries', t');
    PutGet(entries, id, GetOr(entries, id, []) + [info], id');
    PutKeys(u, t, entries');
  }

  // ---------------------------------------------------------------------------
  // Command calls
  // ---------------------------------------------------------------------------

  /**
   * The range of a command's resource: after the command with the id
   * removed (`command.replace(id, '')`), as long as the id.
   */
  function CommandRange(line: Line, m: Match): Range
    requires |m.groups| == 2
  {
    var prefix := ReplaceFirst(m.groups[0], m.groups[1], "");
    var start := line.firstNonWhitespace + m.index + |prefix|;
    LineRange(line.lineNumber, start, start + |m.groups[1]|)
  }

  /**
   * When the id occurs in the match, its range is `|id|` long and ends where
   * the match ends.
   */
  lemma {:induction false} CommandRangeAtMatchEnd(line: Line, m: Match)
    requires |m.groups| == 2 && IndexOf(m.groups[0], m.groups[1]).Some?
    ensures var end := line.firstNonWhitespace + m.index + |m.groups[0]|;
      CommandRange(line, m) == Range(Position(line.lineNumber, end - |m.groups[1]|), Position(line.lineNumber, end))
  {
    ReplaceFirstLength(m.groups[0], m.groups[1]);
  }

  /** One match: recorded when it has exactly one group. */
  function MatchUsage(u: Usages, c: Command, line: Line, m: Match): Usages {
    if |m.groups| == 2 then Record(u, c.type_, m.groups[1], LineInfo(CommandRange(line, m), c.link))
    else u
  }

  /** The matches of one regex, in order. */
  function MatchesUsages(u: Usages, c: Command, line: Line, ms: seq<Match>): Usages {
    if ms == [] then u else MatchUsage(MatchesUsages(u, c, line, ms[..|ms| - 1]), c, line, ms[|ms| - 1])
  }

  /** The first `k` regexes of command `ci`, each after initialising the command's type. */
  function RegexUsages(u: Usages, ci: nat, line: Line, k: nat): Usages
    requires ci < |SupportedCommands| && k <= |SupportedCommands[ci].commands|
  {
    if k == 0 then u
    else
      var c := SupportedCommands[ci];
      MatchesUsages(Init(RegexUsages(u, ci, line, k - 1), c.type_), c, line, line.commandMatches(ci, k - 1))
  }

  /** `extractCommandCalls`, over the first `n` supported commands. */
  function CommandUsages(u: Usages, line: Line, n: nat): Usages
    requires n <= |SupportedCommands|
  {
    if n == 0 then u
    else RegexUsages(CommandUsages(u, line, n - 1), n - 1, line, |SupportedCommands[n - 1].commands|)
  }

  lemma {:induction false} MatchesKeep(u: Usages, c: Command, line: Line, ms: seq<Match>, t: UsageType, id: string)
    ensures Kept(u, MatchesUsages(u, c, line, ms), t, id)
  {
    if ms != [] {
      var prev := MatchesUsages(u, c, line, ms[..|ms| - 1]);
      MatchesKeep(u, c, line, ms[..|ms| - 1], t, id);
      var m := ms[|ms| - 1];
      if |m.groups| == 2 {
        RecordAppends(prev, c.type_, m.groups[1], LineInfo(CommandRange(line, m), c.link), t, id);
      }
    }
  }

  lemma {:induction false} RegexesKeep(u: Usages, ci: nat, line: Line, k: nat, t: UsageType, id: string)
    requires ci < |SupportedCommands| && k <= |SupportedCommands[ci].commands|
    ensures Kept(u, RegexUsages(u, ci, line, k), t, id)
    ensures k > 0 ==> SupportedCommands[ci].type_ in Keys(RegexUsages(u, ci, line, k))
  {
    if k > 0 {
      var c := SupportedCommands[ci];
      var prev := RegexUsages(u, ci, line, k - 1);
      RegexesKeep(u, ci, line, k - 1, t, id);
      InitKeeps(prev, c.type_, t, id);
      MatchesKeep(Init(prev, c.type_), c, line, line.commandMatches(ci, k - 1), t, id);
      MatchesKeep(Init(prev, c.type_), c, line, line.commandMatches(ci, k - 1), c.type_, id);
    }
  }

  /** The command scan only ever appends usages. */
  lemma {:induction false} CommandsKeep(u: Usages, line: Line, n: nat, t: UsageType, id: string)
    requires n <= |SupportedCommands|
    ensures Kept(u, CommandUsages(u, line, n), t, id)
  {
    if n > 0 {
      CommandsKeep(u, line, n - 1, t, id);
      RegexesKeep(CommandUsages(u, line, n - 1), n - 1, line, |SupportedCommands[n - 1].commands|, t, id);
    }
  }

  /** After the command scan every supported command's type has an entry, even one no match filled. */
  lemma {:induction false} CommandTypesPresent(u: Usages, line: Line, n: nat)
    requires n <= |SupportedCommands|
    ensures forall j :: 0 <= j < n ==> SupportedCommands[j].type_ in Keys(CommandUsages(u, line, n))
  {
    if n > 0 {
      var prev := CommandUsages(u, line, n - 1);
      CommandTypesPresent(u, line, n - 1);
      var k := |SupportedCommands[n - 1].commands|;
      RegexesKeep(prev, n - 1, line, k, SupportedCommands[n - 1].type_, "");
      forall j | 0 <= j < n - 1
        ensures SupportedCommands[j].type_ in Keys(CommandUsages(u, line, n))
      {
        RegexesKeep(prev, n - 1, line, k, SupportedCommands[j].type_, "");
      }
    }
  }

  // ---------------------------------------------------------------------------
  // Selector arguments
  // ---------------------------------------------------------------------------

  /**
   * The `while` loops of `parseSelector`: the characters from `index` up to
   * the first `stop` character or the end of the input, and the index reached.
   */
  function ScanUntil(input: string, index: int, stop: char): (r: (string, int))
    requires 0 <= index
    decreases |input| - index
    ensures r.1 >= index
    ensures index <= |input| ==> r.1 <= |input| && r.0 == input[index..r.1]
    ensures index > |input| ==> r == ("", index)
  {
    if index < |input| && input[index] != stop then
      var r := ScanUntil(input, index + 1, stop);
      ([input[index]] + r.0, r.1)
    else ("", index)
  }

  /** The scan stops at the first `stop` character: none is read, and the one reached, if any, is `stop`. */
  lemma {:induction false} ScanUntilStops(input: string, index: int, stop: char)
    requires 0 <= index
    decreases |input| - index
    ensures var r := ScanUntil(input, index, stop);
      (r.1 < |input| ==> input[r.1] == stop) && forall j :: 0 <= j < |r.0| ==> r.0[j] != stop
  {
    if index < |input| && input[index] != stop {
      ScanUntilStops(input, index + 1, stop);
    }
  }

  /** One `key=value` argument: the raw key, the raw value, where the value starts on the line, and the index after it. */
  datatype Argument = Argument(key: string, value: string, valueStart: int, next: int)

  /** A compound value (`{...}`) follows the keys `scores` and `hasitem`. */
  predicate CompoundKey(key: string) {
    Trim(key) == "scores" || Trim(key) == "hasitem"
  }

  /**
   * The argument at `index`: the key runs to `=`; a compound value starts
   * after the `{` and runs to `}`, and any other value runs to the next `,`.
   * The value's start on the line is taken before the `{` is skipped.
   */
  function ArgumentAt(input: string, index: int, startIndex: int, lineStart: int): (a: Argument)
    requires 0 <= index
    ensures a.next > index
  {
    var k := ScanUntil(input, index, '=');
    var i := k.1 + 1;
    if CompoundKey(k.0) then
      var v := ScanUntil(input, i + 1, '}');
      Argument(k.0, v.0, lineStart + i + startIndex, v.1 + 1)
    else
      var v := ScanUntil(input, i, ',');
      Argument(k.0, v.0, lineStart + i + startIndex, v.1)
  }

  /** The key is the text up to the first `=`, and the value's start is counted from just after it. */
  lemma {:induction false} ArgumentKey(input: string, index: int, startIndex: int, lineStart: int)
    requires 0 <= index <= |input|
    ensures var a := ArgumentAt(input, index, startIndex, lineStart);
      var e := index + |a.key|;
      e <= |input| && a.key == input[index..e] && (e < |input| ==> input[e] == '=') &&
      (forall j :: 0 <= j < |a.key| ==> a.key[j] != '=') &&
      a.valueStart == lineStart + e + 1 + startIndex
  {
    ScanUntilStops(input, index, '=');
  }

  /** A `scores` or `hasitem` value starts after `={`, keeps its commas and stops at `}`. */
  lemma {:induction false} CompoundValue(input: string, index: int, startIndex: int, lineStart: int)
    requires 0 <= index <= |input|
    requires CompoundKey(ArgumentAt(input, index, startIndex, lineStart).key)
    ensures var a := ArgumentAt(input, index, startIndex, lineStart);
      var from := index + |a.key| + 2;
      (from <= |input| ==> from + |a.value| <= |input| && a.value == input[from..from + |a.value|]) &&
      (forall j :: 0 <= j < |a.value| ==> a.value[j] != '}')
  {
    var k := ScanUntil(input, index, '=');
    var v := ScanUntil(input, k.1 + 2, '}');
    assert |k.0| == k.1 - index;
    assert ArgumentAt(input, index, startIndex, lineStart).value == v.0;
    ScanUntilStops(input, k.1 + 2, '}');
  }

  /** Any other value starts after `=` and stops at `,`. */
  lemma {:induction false} PlainValue(input: string, index: int, startIndex: int, lineStart: int)
    requires 0 <= index <= |input|
    requires !CompoundKey(ArgumentAt(input, index, startIndex, lineStart).key)
    ensures var a := ArgumentAt(input, index, startIndex, lineStart);
      var from := index + |a.key| + 1;
      (from <= |input| ==> from + |a.value| <= |input| && a.value == input[from..from + |a.value|]) &&
      (forall j :: 0 <= j < |a.value| ==> a.value[j] != ',')
  {
    var (key, i) := ScanUntil(input, index, '=');
    assert |key| == i - index;
    var (value, j) := ScanUntil(input, i + 1, ',');
    ScanUntilStops(input, i + 1, ',');
    assert ArgumentAt(input, index, startIndex, lineStart).value == value;
  }

  /** The value as recorded: trimmed, and a leading `!` removed with the range moved past it. */
  datatype Value = Value(text: string, start: int, length: int)

  function ValueOf(value: string, valueStart: int): Value {
    var t := Trim(value);
    if t != [] && t[0] == '!' then Value(t[1..], valueStart + 1, |value| - 1) else Value(t, valueStart, |value|)
  }

  /**
   * A negated value is recorded without its `!`, one character further on
   * and one character shorter; any other value is recorded trimmed, with the
   * start and length of the raw value.
   */
  lemma {:induction false} NegationStripped(value: string, valueStart: int)
    ensures Trim(value) != [] && Trim(value)[0] == '!' ==>
      var v := ValueOf(value, valueStart);
      [Trim(value)[0]] + v.text == Trim(value) && v.start == valueStart + 1 && v.start + v.length == valueStart + |value|
    ensures !(Trim(value) != [] && Trim(value)[0] == '!') ==>
      ValueOf(value, valueStart) == Value(Trim(value), valueStart, |value|)
  {
  }

  /** A character of `IDENTIFIER`: `[a-z0-9_.-]`. */
  predicate IdentifierChar(c: char) {
    'a' <= c <= 'z' || '0' <= c <= '9' || c == '_' || c == '.' || c == '-'
  }

  /**
   * `RESOURCE_ID.test(s)`: the pattern is unanchored and its first part needs
   * one identifier character, so it matches exactly when `s` holds one.
   */
  predicate ResourceIdTest(s: string) {
    exists j :: 0 <= j < |s| && IdentifierChar(s[j])
  }

  /** The loop over the supported selectors for one argument. */
  function SelectorRulesUsages(u: Usages, rules: seq<SelectorRule>, key: string, v: Value, line: Line): Usages {
    if rules == [] then u
    else
      var u' := SelectorRulesUsages(u, rules[..|rules| - 1], key, v, line);
      var rule := rules[|rules| - 1];
      if rule.prefix == key && (|v.text| == 0 || ResourceIdTest(v.text)) then
        Record(Init(u', rule.type_), rule.type_, v.text,
               LineInfo(LineRange(line.lineNumber, v.start, v.start + v.length), rule.link))
      else u'
  }

  /**
   * The arguments `parseSelector(input, index, startIndex)` reads: one at
   * `index`, then the rest from just past its end, until `]` or past the end.
   */
  function Arguments(input: string, index: int, startIndex: int, lineStart: int): seq<Argument>
    requires 0 <= index
    decreases |input| + 1 - index
  {
    if index > |input| || (index < |input| && input[index] == ']') then []
    else
      var a := ArgumentAt(input, index, startIndex, lineStart);
      [a] + Arguments(input, a.next + 1, startIndex, lineStart)
  }

  /** One argument: its value as recorded, run through the selector table. */
  function ArgumentUsages(u: Usages, a: Argument, line: Line): Usages {
    SelectorRulesUsages(u, SupportedSelectors, a.key, ValueOf(a.value, a.valueStart), line)
  }

  /** The arguments applied in the order they were read. */
  function ArgumentsUsages(u: Usages, args: seq<Argument>, line: Line): Usages
    decreases |args|
  {
    if args == [] then u else ArgumentsUsages(ArgumentUsages(u, args[0], line), args[1..], line)
  }

  /** `parseSelector(input, index, startIndex)`: the usages its arguments record. */
  function SelectorUsages(u: Usages, input: string, index: int, startIndex: int, line: Line): Usages
    requires 0 <= index
  {
    ArgumentsUsages(u, Arguments(input, index, startIndex, line.firstNonWhitespace), line)
  }

  /** The scan stops at once at `]` or past the end, and otherwise reads the argument at `index` first. */
  lemma {:induction false} ArgumentsStep(input: string, index: int, startIndex: int, lineStart: int, a: Argument)
    requires 0 <= index
    requires a == ArgumentAt(input, index, startIndex, lineStart)
    ensures index > |input| || (index < |input| && input[index] == ']') ==>
      Arguments(input, index, startIndex, lineStart) == []
    ensures index <= |input| && (index == |input| || input[index] != ']') ==>
      Arguments(input, index, startIndex, lineStart) == [a] + Arguments(input, a.next + 1, startIndex, lineStart)
  {
  }

  /** Applying a list of arguments is applying its first, then the rest. */
  lemma {:induction false} ArgumentsUsagesCons(u: Usages, a: Argument, rest: seq<Argument>, line: Line)
    ensures ArgumentsUsages(u, [a] + rest, line) == ArgumentsUsages(ArgumentUsages(u, a, line), rest, line)
  {
    assert ([a] + rest)[1..] == rest;
  }

  /** One step of `parseSelector`: the argument at `index`, then the rest from just past its end. */
  lemma {:induction false} SelectorStep(u: Usages, u': Usages, u'': Usages, input: string, index: int, startIndex: int, line: Line, a: Argument)
    requires 0 <= index <= |input| && (index == |input| || input[index] != ']')
    requires a == ArgumentAt(input, index, startIndex, line.firstNonWhitespace)
    requires u' == ArgumentUsages(u, a, line)
    requires u'' == SelectorUsages(u', input, a.next + 1, startIndex, line)
    ensures SelectorUsages(u, input, index, startIndex, line) == u''
  {
    ArgumentsStep(input, index, startIndex, line.firstNonWhitespace, a);
    ArgumentsUsagesCons(u, a, Arguments(input, a.next + 1, startIndex, line.firstNonWhitespace), line);
  }

  /**
   * Only an argument whose raw key is exactly `type` records anything, and
   * it records an entity identifier usage with no link, when the value is
   * empty or holds an identifier character.
   */
  lemma {:induction false} OnlyTypeRecords(u: Usages, key: string, v: Value, line: Line)
    ensures key != "type" ==> SelectorRulesUsages(u, SupportedSelectors, key, v, line) == u
    ensures key == "type" && (|v.text| == 0 || ResourceIdTest(v.text)) ==>
      UsagesOf(SelectorRulesUsages(u, SupportedSelectors, key, v, line), FileUsage(ServerEntityIdentifier), v.text) ==
      UsagesOf(u, FileUsage(ServerEntityIdentifier), v.text) +
        [LineInfo(LineRange(line.lineNumber, v.start, v.start + v.length), false)]
    ensures key == "type" && |v.text| > 0 && !ResourceIdTest(v.text) ==>
      SelectorRulesUsages(u, SupportedSelectors, key, v, line) == u
  {
    var t := FileUsage(ServerEntityIdentifier);
    assert SupportedSelectors[..0] == [];
    InitKeeps(u, t, t, v.text);
    RecordAppends(Init(u, t), t, v.text, LineInfo(LineRange(line.lineNumber, v.start, v.start + v.length), false), t, v.text);
  }

  lemma {:induction false} SelectorRulesKeep(u: Usages, rules: seq<SelectorRule>, key: string, v: Value, line: Line, t: UsageType, id: string)
    ensures Kept(u, SelectorRulesUsages(u, rules, key, v, line), t, id)
  {
    if rules != [] {
      var u' := SelectorRulesUsages(u, rules[..|rules| - 1], key, v, line);
      SelectorRulesKeep(u, rules[..|rules| - 1], key, v, line, t, id);
      var rule := rules[|rules| - 1];
      InitKeeps(u', rule.type_, t, id);
      RecordAppends(Init(u', rule.type_), rule.type_, v.text,
                    LineInfo(LineRange(line.lineNumber, v.start, v.start + v.length), rule.link), t, id);
    }
  }

  /** Applying arguments only ever appends usages. */
  lemma {:induction false} ArgumentsKeep(u: Usages, args: seq<Argument>, line: Line, t: UsageType, id: string)
    decreases |args|
    ensures Kept(u, ArgumentsUsages(u, args, line), t, id)
  {
    if args != [] {
      var a := args[0];
      var u' := ArgumentUsages(u, a, line);
      SelectorRulesKeep(u, SupportedSelectors, a.key, ValueOf(a.value, a.valueStart), line, t, id);
      ArgumentsKeep(u', args[1..], line, t, id);
      KeptTransitive(u, u', ArgumentsUsages(u', args[1..], line), t, id);
    }
  }

  /** One selector match: a non-empty argument list is scanned with its closing quote removed. */
  function MatchSelectorUsages(u: Usages, m: SelectorMatch, line: Line, removeEndingQuote: string -> string): Usages {
    if m.arguments.Some? && m.arguments.value != "" then
      SelectorUsages(u, removeEndingQuote(m.arguments.value), 0, m.index, line)
    else u
  }

  /** `extractSelectors`, over the first `n` selector matches. */
  function SelectorsUsages(u: Usages, line: Line, removeEndingQuote: string -> string, n: nat): Usages
    requires n <= |line.selectorMatches|
  {
    if n == 0 then u
    else MatchSelectorUsages(SelectorsUsages(u, line, removeEndingQuote, n - 1), line.selectorMatches[n - 1], line, removeEndingQuote)
  }

  lemma {:induction false} MatchSelectorKeep(u: Usages, m: SelectorMatch, line: Line, removeEndingQuote: string -> string, t: UsageType, id: string)
    ensures Kept(u, MatchSelectorUsages(u, m, line, removeEndingQuote), t, id)
  {
    if m.arguments.Some? && m.arguments.value != "" {
      ArgumentsKeep(u, Arguments(removeEndingQuote(m.arguments.value), 0, m.index, line.firstNonWhitespace), line, t, id);
    }
  }

  lemma {:induction false} SelectorsKeep(u: Usages, line: Line, removeEndingQuote: string -> string, n: nat, t: UsageType, id: string)
    requires n <= |line.selectorMatches|
    ensures Kept(u, SelectorsUsages(u, line, removeEndingQuote, n), t, id)
  {
    if n > 0 {
      var u' := SelectorsUsages(u, line, removeEndingQuote, n - 1);
      SelectorsKeep(u, line, removeEndingQuote, n - 1, t, id);
      MatchSelectorKeep(u', line.selectorMatches[n - 1], line, removeEndingQuote, t, id);
      KeptTransitive(u, u', MatchSelectorUsages(u', line.selectorMatches[n - 1], line, removeEndingQuote), t, id);
    }
  }

  /** The usages of a line, as the constructor leaves them. */
  function LineUsages(line: Line, removeEndingQuote: string -> string): Usages {
    if IsValidLine(Content(line)) then
      SelectorsUsages(CommandUsages([], line, |SupportedCommands|), line, removeEndingQuote, |line.selectorMatches|)
    else []
  }

  /**
   * A comment line has no usages. On any other line every supported command
   * type has an entry, and the selector scan keeps every command usage: the
   * usages of each type and identifier only grow.
   */
  lemma {:induction false} LineUsagesShape(line: Line, removeEndingQuote: string -> string, t: UsageType, id: string)
    ensures !IsValidLine(Content(line)) ==> LineUsages(line, removeEndingQuote) == []
    ensures IsValidLine(Content(line)) ==>
      Kept(CommandUsages([], line, |SupportedCommands|), LineUsages(line, removeEndingQuote), t, id) &&
      forall j :: 0 <= j < |SupportedCommands| ==> SupportedCommands[j].type_ in Keys(LineUsages(line, removeEndingQuote))
  {
    if IsValidLine(Content(line)) {
      var cu := CommandUsages([], line, |SupportedCommands|);
      CommandTypesPresent([], line, |SupportedCommands|);
      SelectorsKeep(cu, line, removeEndingQuote, |line.selectorMatches|, t, id);
      forall j | 0 <= j < |SupportedCommands|
        ensures SupportedCommands[j].type_ in Keys(LineUsages(line, removeEndingQuote))
      {
        SelectorsKeep(cu, line, removeEndingQuote, |line.selectorMatches|, SupportedCommands[j].type_, "");
      }
    }
  }

  // ---------------------------------------------------------------------------
  // The usage under the cursor
  // ---------------------------------------------------------------------------

  /** What `getUsageAtCursorPosition` returns. */
  datatype UsageAt = UsageAt(content: string, range: Range, type_: UsageType)

  /** The first of `infos` whose range contains `p`. */
  function FirstInfo(infos: seq<LineInfo>, p: Position): (r: Option<LineInfo>)
    ensures r.Some? ==> r.value in infos && Contains(r.value.range, p)
    ensures r.None? <==> forall i :: 0 <= i < |infos| ==> !Contains(infos[i].range, p)
  {
    if infos == [] then None
    else if Contains(infos[0].range, p) then Some(infos[0])
    else
      assert forall i :: 1 <= i < |infos| ==> infos[i] == infos[1..][i - 1];
      FirstInfo(infos[1..], p)
  }

  /** The first identifier, in insertion order, with a usage containing `p`. */
  function FirstEntry(entries: OMap<string, seq<LineInfo>>, p: Position): (r: Option<(string, LineInfo)>)
    ensures r.Some? ==> exists i :: 0 <= i < |entries| && entries[i].0 == r.value.0 && r.value.1 in entries[i].1
    ensures r.Some? ==> Contains(r.value.1.range, p)
    ensures r.None? <==> forall i :: 0 <= i < |entries| ==> FirstInfo(entries[i].1, p).None?
  {
    if entries == [] then None
    else
      match FirstInfo(entries[0].1, p)
      case Some(info) => Some((entries[0].0, info))
      case None =>
        assert forall i :: 1 <= i < |entries| ==> entries[i] == entries[1..][i - 1];
        FirstEntry(entries[1..], p)
  }

  /** The first type, in insertion order, with a usage containing `p`. */
  function FirstUsage(u: Usages, p: Position): (r: Option<(UsageType, string, LineInfo)>)
    ensures r.Some? ==> r.value.0 in Keys(u) && Contains(r.value.2.range, p)
    ensures r.None? <==> forall i :: 0 <= i < |u| ==> FirstEntry(u[i].1, p).None?
  {
    if u == [] then None
    else
      match FirstEntry(u[0].1, p)
      case Some(e) => Some((u[0].0, e.0, e.1))
      case None =>
        assert forall i :: 1 <= i < |u| ==> u[i] == u[1..][i - 1];
        FirstUsage(u[1..], p)
  }

  /** The found range cut at the cursor: `range.with({ end: (end.line, min(end.character, cursor.character)) })`. */
  function CutAtCursor(r: Range, p: Position): (c: Range)
    ensures c.start == r.start && c.end.line == r.end.line
    ensures c.end.character <= r.end.character && c.end.character <= p.character
  {
    Range(r.start, Position(r.end.line, if r.end.character < p.character then r.end.character else p.character))
  }

  /** `getUsageAtCursorPosition`, from the usages. */
  function UsageAtCursor(u: Usages, p: Position): (r: Option<UsageAt>)
    ensures r.None? <==> forall i :: 0 <= i < |u| ==> FirstEntry(u[i].1, p).None?
  {
    match FirstUsage(u, p)
    case None => None
    case Some((t, id, info)) => Some(UsageAt(id, CutAtCursor(info.range, p), t))
  }

  /**
   * A usage is found exactly when some recorded range contains the cursor;
   * what is returned names a recorded type and identifier, and its range
   * starts where that usage starts and stops at the cursor at the latest.
   */
  lemma {:induction false} UsageAtCursorFound(u: Usages, p: Position)
    ensures UsageAtCursor(u, p).Some? <==>
      exists i, j, k :: 0 <= i < |u| && 0 <= j < |u[i].1| && 0 <= k < |u[i].1[j].1| &&
        Contains(u[i].1[j].1[k].range, p)
    ensures UsageAtCursor(u, p).Some? ==>
      var r := UsageAtCursor(u, p).value;
      r.type_ in Keys(u) && r.range.end.character <= p.character &&
      exists info :: info in UsagesFlat(u) && info.0 == r.type_ && info.1 == r.content &&
        Contains(info.2.range, p) && r.range == CutAtCursor(info.2.range, p)
  {
    if UsageAtCursor(u, p).Some? {
      var (t, id, info) := FirstUsage(u, p).value;
      FirstUsageFlat(u, p);
    } else {
      forall i, j, k | 0 <= i < |u| && 0 <= j < |u[i].1| && 0 <= k < |u[i].1[j].1|
        ensures !Contains(u[i].1[j].1[k].range, p)
      {
        assert FirstEntry(u[i].1, p).None?;
        assert FirstInfo(u[i].1[j].1, p).None?;
      }
    }
  }

  /** Every recorded usage as (type, identifier, usage), in iteration order. */
  function UsagesFlat(u: Usages): seq<(UsageType, string, LineInfo)> {
    if u == [] then [] else EntriesFlat(u[0].0, u[0].1) + UsagesFlat(u[1..])
  }

  function EntriesFlat(t: UsageType, entries: OMap<string, seq<LineInfo>>): seq<(UsageType, string, LineInfo)> {
    if entries == [] then [] else InfosFlat(t, entries[0].0, entries[0].1) + EntriesFlat(t, entries[1..])
  }

  function InfosFlat(t: UsageType, id: string, infos: seq<LineInfo>): seq<(UsageType, string, LineInfo)> {
    if infos == [] then [] else [(t, id, infos[0])] + InfosFlat(t, id, infos[1..])
  }

  lemma {:induction false} FirstInfoFlat(t: UsageType, id: string, infos: seq<LineInfo>, p: Position)
    requires FirstInfo(infos, p).Some?
    ensures (t, id, FirstInfo(infos, p).value) in InfosFlat(t, id, infos)
  {
    if !Contains(infos[0].range, p) {
      FirstInfoFlat(t, id, infos[1..], p);
    }
  }

  lemma {:induction false} FirstEntryFlat(t: UsageType, entries: OMap<string, seq<LineInfo>>, p: Position)
    requires FirstEntry(entries, p).Some?
    ensures (t, FirstEntry(entries, p).value.0, FirstEntry(entries, p).value.1) in EntriesFlat(t, entries)
  {
    if FirstInfo(entries[0].1, p).Some? {
      FirstInfoFlat(t, entries[0].0, entries[0].1, p);
    } else {
      FirstEntryFlat(t, entries[1..], p);
    }
  }

  lemma {:induction false} FirstUsageFlat(u: Usages, p: Position)
    requires FirstUsage(u, p).Some?
    ensures FirstUsage(u, p).value in UsagesFlat(u)
  {
    if FirstEntry(u[0].1, p).Some? {
      FirstEntryFlat(u[0].0, u[0].1, p);
    } else {
      FirstUsageFlat(u[1..], p);
    }
  }

  // ---------------------------------------------------------------------------
  // The parser
  // ---------------------------------------------------------------------------

  class LineParser {
    const line: Line
    const lineContent: string
    const lineStartIndex: int
    var usages: Usages

    /**
     * `new LineParser(line)`: the content after the leading white space, and
     * the command calls and selector arguments on it unless it is a comment.
     */
    constructor (line: Line, removeEndingQuote: string -> string)
      ensures this.line == line && lineContent == Content(line) && lineStartIndex == line.firstNonWhitespace
      ensures usages == LineUsages(line, removeEndingQuote)
    {
      this.line := line;
      lineContent := Substring(line.text, line.firstNonWhitespace, |line.text|);
      lineStartIndex := line.firstNonWhitespace;
      usages := [];
      new;
      var valid := IsValid();
      if valid {
        ExtractCommandCalls();
        ExtractSelectors(removeEndingQuote);
      }
    }

    /** `isValidLine` */
    method IsValid() returns (b: bool)
      ensures b == IsValidLine(lineContent)
    {
      b := !(StartsWith(lineContent, "#") || StartsWith(lineContent, "//") || StartsWith(lineContent, "*"));
    }

    /** `extractCommandCalls`: for each command, for each of its regexes, its matches. */
    method ExtractCommandCalls()
      requires lineStartIndex == line.firstNonWhitespace
      modifies this
      ensures usages == CommandUsages(old(usages), line, |SupportedCommands|)
    {
      ghost var u0 := usages;
      var ci := 0;
      while ci < |SupportedCommands|
        invariant 0 <= ci <= |SupportedCommands|
        invariant usages == CommandUsages(u0, line, ci)
      {
        var c := SupportedCommands[ci];
        ghost var before := usages;
        var r := 0;
        while r < |c.commands|
          invariant 0 <= r <= |c.commands|
          invariant usages == RegexUsages(before, ci, line, r)
        {
          if c.type_ !in Keys(usages) {
            usages := Put(usages, c.type_, []);
          }
          RecordMatches(c, line.commandMatches(ci, r));
          r := r + 1;
        }
        ci := ci + 1;
      }
    }

    /** The matches of one regex: each with one group records its id and range. */
    method RecordMatches(c: Command, matches: seq<Match>)
      requires lineStartIndex == line.firstNonWhitespace
      modifies this
      ensures usages == MatchesUsages(old(usages), c, line, matches)
    {
      ghost var u0 := usages;
      var k := 0;
      while k < |matches|
        invariant 0 <= k <= |matches|
        invariant usages == MatchesUsages(u0, c, line, matches[..k])
      {
        assert matches[..k + 1][..k] == matches[..k];
        var m := matches[k];
        if |m.groups| == 2 {
          var command, id := m.groups[0], m.groups[1];
          var commandPrefix := ReplaceFirst(command, id, "");
          var start := lineStartIndex + m.index + |commandPrefix|;
          var range := LineRange(line.lineNumber, start, start + |id|);
          var entries := GetOr(usages, c.type_, []);
          usages := Put(usages, c.type_, Put(entries, id, GetOr(entries, id, []) + [LineInfo(range, c.link)]));
        }
        k := k + 1;
      }
      assert matches[..|matches|] == matches;
    }

    /** `extractSelectors`: each non-empty argument list, with a trailing quote removed. */
    method ExtractSelectors(removeEndingQuote: string -> string)
      requires lineStartIndex == line.firstNonWhitespace
      modifies this
      ensures usages == SelectorsUsages(old(usages), line, removeEndingQuote, |line.selectorMatches|)
    {
      ghost var u0 := usages;
      var i := 0;
      while i < |line.selectorMatches|
        invariant 0 <= i <= |line.selectorMatches|
        invariant usages == SelectorsUsages(u0, line, removeEndingQuote, i)
      {
        var m := line.selectorMatches[i];
        if m.arguments.Some? && m.arguments.value != "" {
          var selectorText := removeEndingQuote(m.arguments.value);
          ParseSelector(selectorText, 0, m.index);
        }
        i := i + 1;
      }
    }

    /** `parseSelector(input, index, startIndex)`: one argument, then the rest from the next index. */
    method ParseSelector(input: string, index: int, startIndex: int)
      requires 0 <= index
      requires lineStartIndex == line.firstNonWhitespace
      modifies this
      decreases |input| + 1 - index
      ensures usages == SelectorUsages(old(usages), input, index, startIndex, line)
    {
      if index > |input| || (index < |input| && input[index] == ']') {
        return;
      }
      ghost var u0 := usages;
      var a := ReadArgument(input, index, startIndex);
      ApplyArgument(a);
      ghost var u1 := usages;
      ParseSelector(input, a.next + 1, startIndex);
      SelectorStep(u0, u1, usages, input, index, startIndex, line, a);
    }

    /** The body of `parseSelector` after reading: trim the value, strip a leading `!`, apply the selector table. */
    method ApplyArgument(a: Argument)
      modifies this
      ensures usages == ArgumentUsages(old(usages), a, line)
    {
      var trimmedValue := Trim(a.value);
      var valueStartIndex := a.valueStart;
      var valueLength := |a.value|;
      if trimmedValue != [] && trimmedValue[0] == '!' {
        trimmedValue := trimmedValue[1..];
        valueStartIndex := valueStartIndex + 1;
        valueLength := valueLength - 1;
      }
      ApplySelectors(a.key, Value(trimmedValue, valueStartIndex, valueLength));
    }

    /** The key, then the value: to `}` after `scores` and `hasitem`, to `,` otherwise. */
    method ReadArgument(input: string, index: int, startIndex: int) returns (a: Argument)
      requires 0 <= index
      ensures a == ArgumentAt(input, index, startIndex, lineStartIndex)
    {
      var key, i := ReadUntil(input, index, '=');
      i := i + 1;
      var valueStartIndex := lineStartIndex + i + startIndex;
      var value;
      if CompoundKey(key) {
        i := i + 1;
        value, i := ReadUntil(input, i, '}');
        i := i + 1;
      } else {
        value, i := ReadUntil(input, i, ',');
      }
      a := Argument(key, value, valueStartIndex, i);
    }

    /** A `while` loop of `parseSelector`: the characters up to `stop` or the end, and the index reached. */
    static method ReadUntil(input: string, index: int, stop: char) returns (s: string, i: int)
      requires 0 <= index
      ensures (s, i) == ScanUntil(input, index, stop)
    {
      s := "";
      i := index;
      while i < |input| && input[i] != stop
        invariant index <= i
        invariant index <= |input| ==> i <= |input| && s == input[index..i]
        invariant index > |input| ==> i == index && s == ""
        invariant ScanUntil(input, i, stop).1 == ScanUntil(input, index, stop).1
        decreases |input| - i
      {
        s := s + [input[i]];
        i := i + 1;
      }
    }

    /** The `selectorLoop` over the supported selectors for one argument. */
    method ApplySelectors(key: string, v: Value)
      modifies this
      ensures usages == SelectorRulesUsages(old(usages), SupportedSelectors, key, v, line)
    {
      ghost var u0 := usages;
      var valueRange := LineRange(line.lineNumber, v.start, v.start + v.length);
      var s := 0;
      while s < |SupportedSelectors|
        invariant 0 <= s <= |SupportedSelectors|
        invariant usages == SelectorRulesUsages(u0, SupportedSelectors[..s], key, v, line)
      {
        assert SupportedSelectors[..s + 1][..s] == SupportedSelectors[..s];
        var rule := SupportedSelectors[s];
        if rule.prefix == key && (|v.text| == 0 || ResourceIdTest(v.text)) {
          if rule.type_ !in Keys(usages) {
            usages := Put(usages, rule.type_, []);
          }
          var entries := GetOr(usages, rule.type_, []);
          usages := Put(usages, rule.type_,
                        Put(entries, v.text, GetOr(entries, v.text, []) + [LineInfo(valueRange, rule.link)]));
        }
        s := s + 1;
      }
      assert SupportedSelectors[..|SupportedSelectors|] == SupportedSelectors;
    }

    /** `getUsageAtCursorPosition`: the loops over types, identifiers and usages, returning at the first hit. */
    method GetUsageAtCursorPosition(p: Position) returns (r: Option<UsageAt>)
      ensures r == UsageAtCursor(usages, p)
    {
      var i := 0;
      while i < |usages|
        invariant 0 <= i <= |usages|
        invariant FirstUsage(usages, p) == FirstUsage(usages[i..], p)
      {
        var t, entries := usages[i].0, usages[i].1;
        var j := 0;
        while j < |entries|
          invariant 0 <= j <= |entries|
          invariant FirstEntry(entries, p) == FirstEntry(entries[j..], p)
        {
          var content, infos := entries[j].0, entries[j].1;
          var k := 0;
          while k < |infos|
            invariant 0 <= k <= |infos|
            invariant FirstInfo(infos, p) == FirstInfo(infos[k..], p)
          {
            var range := infos[k].range;
            if Contains(range, p) {
              assert FirstInfo(infos, p) == Some(infos[k]);
              assert FirstEntry(entries, p) == Some((content, infos[k]));
              assert FirstUsage(usages, p) == Some((t, content, infos[k]));
              var end := Position(range.end.line, if range.end.character < p.character then range.end.character else p.character);
              return Some(UsageAt(content, Range(range.start, end), t));
            }
            assert infos[k..][1..] == infos[k + 1..];
            k := k + 1;
          }
          assert FirstInfo(infos, p).None?;
          assert entries[j..][1..] == entries[j + 1..];
          j := j + 1;
        }
        assert FirstEntry(entries, p).None?;
        assert usages[i..][1..] == usages[i + 1..];
        i := i + 1;
      }
      return None;
    }
  }
}
