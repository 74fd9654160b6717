/**
 * `CommandHandler` (src/handlers/CommandHandler.ts): the calls of
 * `function`, `particle` and `summon` in a function file, one per line and
 * type, grouped by identifier, and the links from function calls to the
 * function files found for them.
 */
module CommandHandler {
  import opened Base
  import opened OrderedMap
  import LineParser

  /** `supportedCalls`, in order. */
  const SupportedCalls: seq<FileType> := [McFunction, Particle, ServerEntityIdentifier]

  /** `commandPrefixes`: the command that calls each supported type. */
  function CommandPrefix(t: FileType): string
    requires t in SupportedCalls
  {
    if t == McFunction then "function" else if t == Particle then "particle" else "summon"
  }

  /** A `TextLine`: its text and the index of its first non-whitespace character. */
  datatype TextLine = TextLine(text: string, firstNonWhitespace: int)

  /** The end of the run of `rc` characters (`[a-z0-9_.-]`) that starts at `i`. */
  function RunEnd(text: string, i: nat): (e: nat)
    requires i <= |text|
    decreases |text| - i
    ensures i <= e <= |text|
    ensures i < |text| && LineParser.IdentifierChar(text[i]) ==> i < e
  {
    if i < |text| && LineParser.IdentifierChar(text[i]) then RunEnd(text, i + 1) else i
  }

  /**
   * The end of what the greedy group `((?:\/?rc+)*)` takes from `k`: runs of
   * `rc`, each after an optional `/`. Nothing follows the group in the
   * pattern, so it takes as much as it can.
   */
  function ResourceEnd(text: string, k: nat): (e: nat)
    requires k <= |text|
    decreases |text| - k
    ensures k <= e <= |text|
  {
    if k < |text| && LineParser.IdentifierChar(text[k]) then ResourceEnd(text, RunEnd(text, k))
    else if k + 1 < |text| && text[k] == '/' && LineParser.IdentifierChar(text[k + 1]) then ResourceEnd(text, RunEnd(text, k + 1))
    else k
  }

  /** A match of `${commandName} ${resourceLocation}`: its index and its two groups, the namespace `undefined` when absent. */
  datatype CallMatch = CallMatch(index: nat, namespace: Option<string>, resource: string)

  /**
   * `text.match(new RegExp(`${commandName} ${resourceLocation}`))`. What
   * follows the command name and the space can match the empty string, so
   * the match is at the first occurrence of both. The optional namespace
   * group is taken whenever a run of `rc` is followed by `:`.
   */
  function MatchCall(text: string, commandName: string): Option<CallMatch> {
    match IndexOf(text, commandName + " ")
    case None => None
    case Some(index) => Some(MatchAt(text, commandName, index))
  }

  /** The groups of the match at `index`, where the command name and the space end at `j`. */
  function MatchAt(text: string, commandName: string, index: nat): (m: CallMatch)
    requires index + |commandName| + 1 <= |text|
    ensures m.index == index
    ensures var j := index + |commandName| + 1; var n := RunEnd(text, j);
      m.namespace.Some? ==> j < n < |text| && text[n] == ':' && m.namespace.value == text[j..n] &&
                            (forall i :: 0 <= i < |m.namespace.value| ==> LineParser.IdentifierChar(m.namespace.value[i])) &&
                            m.resource == text[n + 1..ResourceEnd(text, n + 1)]
    ensures var j := index + |commandName| + 1;
      m.namespace.None? ==> m.resource == text[j..ResourceEnd(text, j)]
  {
    var j := index + |commandName| + 1;
    var n := RunEnd(text, j);
    if j < n && n < |text| && text[n] == ':' then
      RunChars(text, j, text[j..n]);
      CallMatch(index, Some(text[j..n]), text[n + 1..ResourceEnd(text, n + 1)])
    else
      CallMatch(index, None, text[j..ResourceEnd(text, j)])
  }

  /** A call found on a line: the range of its identifier and the identifier. */
  datatype Call = Call(range: Range, id: string)

  /** `getRangeFromLine(prefix, resource, startIndex, lineNumber)`: from just after the prefix and its space, as long as the resource. */
  function RangeFromLine(prefix: string, resource: string, startIndex: int, lineNumber: int): Range {
    var start := startIndex + |prefix + " "|;
    LineRange(lineNumber, start, start + |resource|)
  }

  /** The identifier a match stands for: the resource of a function call, `namespace:resource` otherwise. */
  function CallId(t: FileType, m: CallMatch): string {
    if t == McFunction then m.resource
    else (if m.namespace.Some? then m.namespace.value else "undefined") + ":" + m.resource
  }

  /** `extractCallFromLine(line, type, lineNumber)`: `None` is the `undefined` it returns. */
  function ExtractCallFromLine(line: TextLine, t: FileType, lineNumber: int): (r: Option<Call>)
    requires t in SupportedCalls
    ensures r.Some? ==>
      LineParser.IsValidLine(Substring(line.text, line.firstNonWhitespace, |line.text|)) &&
      MatchCall(line.text, CommandPrefix(t)).Some? &&
      EndsWith(r.value.id, MatchCall(line.text, CommandPrefix(t)).value.resource)
    ensures r.Some? ==> r.value.range.start.line == lineNumber && r.value.range.end.line == lineNumber
  {
    var commandName := CommandPrefix(t);
    var lineContent := Substring(line.text, line.firstNonWhitespace, |line.text|);
    if !LineParser.IsValidLine(lineContent) then None
    else
      match MatchCall(line.text, commandName)
      case None => None
      case Some(m) =>
        if t == McFunction && m.namespace.Some? then None
        else
          var id := CallId(t, m);
          Some(Call(RangeFromLine(commandName, id, m.index, lineNumber), id))
  }

  /** A run of `rc` is made of `rc` characters and stops before the first other character. */
  lemma {:induction false} RunEndStops(text: string, i: nat)
    requires i <= |text|
    decreases |text| - i
    ensures var e := RunEnd(text, i);
      (forall k :: i <= k < e ==> LineParser.IdentifierChar(text[k])) &&
      (e == |text| || !LineParser.IdentifierChar(text[e]))
  {
    if i < |text| && LineParser.IdentifierChar(text[i]) {
      RunEndStops(text, i + 1);
    }
  }

  /** `text[k..e]` matches `(?:\/?rc+)*`: `rc` characters and slashes, each slash followed by an `rc` character. */
  predicate PathBetween(text: string, k: int, e: int)
    requires 0 <= k <= e <= |text|
  {
    forall i :: k <= i < e ==> PathChar(text, i, e)
  }

  /** The character at `i` is an `rc` character, or a slash with an `rc` character after it before `e`. */
  predicate PathChar(text: string, i: int, e: int)
    requires 0 <= i < e <= |text|
  {
    LineParser.IdentifierChar(text[i]) || (text[i] == '/' && i + 1 < e && LineParser.IdentifierChar(text[i + 1]))
  }

  /**
   * The resource group matches a resource path and is greedy: it cannot be
   * extended by one more `rc` character or by a slash and an `rc` character.
   */
  lemma {:induction false} ResourceEndMaximal(text: string, k: nat)
    requires k <= |text|
    decreases |text| - k
    ensures var e := ResourceEnd(text, k);
      PathBetween(text, k, e) &&
      !(e < |text| && LineParser.IdentifierChar(text[e])) &&
      !(e + 1 < |text| && text[e] == '/' && LineParser.IdentifierChar(text[e + 1]))
  {
    var e := ResourceEnd(text, k);
    if k < |text| && LineParser.IdentifierChar(text[k]) {
      var n := RunEnd(text, k);
      RunEndStops(text, k);
      ResourceEndMaximal(text, n);
      assert e == ResourceEnd(text, n);
      forall i | k <= i < e
        ensures PathChar(text, i, e)
      {
        if n <= i {
          assert PathBetween(text, n, e);
        }
      }
    } else if k + 1 < |text| && text[k] == '/' && LineParser.IdentifierChar(text[k + 1]) {
      var n := RunEnd(text, k + 1);
      RunEndStops(text, k + 1);
      ResourceEndMaximal(text, n);
      assert e == ResourceEnd(text, n);
      forall i | k <= i < e
        ensures PathChar(text, i, e)
      {
        if n <= i {
          assert PathBetween(text, n, e);
        }
      }
    }
  }

  /** The match is at the first occurrence of the command name and a space; with no occurrence there is no match. */
  lemma {:induction false} MatchCallPosition(text: string, commandName: string)
    ensures MatchCall(text, commandName).None? <==> forall j :: !OccursAt(text, commandName + " ", j)
    ensures MatchCall(text, commandName).Some? ==>
      OccursAt(text, commandName + " ", MatchCall(text, commandName).value.index) &&
      forall i :: 0 <= i < MatchCall(text, commandName).value.index ==> !OccursAt(text, commandName + " ", i)
  {
  }

  /** The run of `rc` characters from `j` is made of `rc` characters. */
  lemma {:induction false} RunChars(text: string, j: nat, run: string)
    requires j <= |text| && run == text[j..RunEnd(text, j)]
    ensures forall i :: 0 <= i < |run| ==> LineParser.IdentifierChar(run[i])
  {
    RunEndStops(text, j);
    forall i | 0 <= i < |run|
      ensures LineParser.IdentifierChar(run[i])
    {
      assert run[i] == text[j + i];
    }
  }

  /**
   * The resource group reads, from where it starts (after the namespace and
   * `:` when there is one, else right after the command name and the space),
   * a resource path that the next characters cannot extend.
   */
  lemma {:induction false} MatchResource(text: string, commandName: string, index: nat, m: CallMatch, start: nat)
    requires index + |commandName| + 1 <= |text|
    requires m == MatchAt(text, commandName, index)
    requires start == index + |commandName| + 1 + (if m.namespace.Some? then |m.namespace.value| + 1 else 0)
    ensures var e := start + |m.resource|;
      e <= |text| && text[start..e] == m.resource && PathBetween(text, start, e) &&
      !(e < |text| && LineParser.IdentifierChar(text[e])) &&
      !(e + 1 < |text| && text[e] == '/' && LineParser.IdentifierChar(text[e + 1]))
  {
    var j := index + |commandName| + 1;
    if m.namespace.Some? {
      var n := RunEnd(text, j);
      assert start == n + 1;
      ResourceEndMaximal(text, n + 1);
    } else {
      ResourceEndMaximal(text, j);
    }
  }

  /** A comment line (`#`, `//` or `*` after the leading white space) has no call. */
  lemma {:induction false} CommentLineHasNoCall(line: TextLine, t: FileType, lineNumber: int)
    requires t in SupportedCalls
    requires !LineParser.IsValidLine(Substring(line.text, line.firstNonWhitespace, |line.text|))
    ensures ExtractCallFromLine(line, t, lineNumber) == None
  {
  }

  /**
   * The identifier of a call: a function call with a namespace (a Java
   * edition function) is no call; any other function call is its resource;
   * particle and summon calls are `namespace:resource`, with the literal
   * `undefined` when no namespace was written.
   */
  lemma {:induction false} CallIdentifier(line: TextLine, t: FileType, lineNumber: int)
    requires t in SupportedCalls
    requires LineParser.IsValidLine(Substring(line.text, line.firstNonWhitespace, |line.text|))
    requires MatchCall(line.text, CommandPrefix(t)).Some?
    ensures var m := MatchCall(line.text, CommandPrefix(t)).value;
      var c := ExtractCallFromLine(line, t, lineNumber);
      (t == McFunction && m.namespace.Some? ==> c == None) &&
      (t == McFunction && m.namespace.None? ==> c.Some? && c.value.id == m.resource) &&
      (t != McFunction && m.namespace.Some? ==> c.Some? && c.value.id == m.namespace.value + ":" + m.resource) &&
      (t != McFunction && m.namespace.None? ==> c.Some? && c.value.id == "undefined:" + m.resource)
  {
  }

  /** The range of a call starts just after the command name and its space and is as long as the identifier. */
  lemma {:induction false} CallRange(line: TextLine, t: FileType, lineNumber: int)
    requires t in SupportedCalls
    requires ExtractCallFromLine(line, t, lineNumber).Some?
    ensures var c := ExtractCallFromLine(line, t, lineNumber).value;
      var m := MatchCall(line.text, CommandPrefix(t)).value;
      var start := m.index + |CommandPrefix(t)| + 1;
      c.range == Range(Position(lineNumber, start), Position(lineNumber, start + |c.id|))
  {
  }

  /**
   * Right after the command name and its space the text reads the resource
   * when there is no namespace, and `namespace:resource` (the identifier of
   * a particle or summon call) when there is one.
   */
  lemma {:induction false} IdentifierText(text: string, t: FileType, m: CallMatch)
    requires t in SupportedCalls
    requires m.index + |CommandPrefix(t)| + 1 <= |text| && m == MatchAt(text, CommandPrefix(t), m.index)
    ensures var start := m.index + |CommandPrefix(t)| + 1; var id := CallId(t, m);
      (t != McFunction && m.namespace.Some? ==> start + |id| <= |text| && text[start..start + |id|] == id) &&
      (m.namespace.None? ==> start + |m.resource| <= |text| && text[start..start + |m.resource|] == m.resource)
  {
    var start := m.index + |CommandPrefix(t)| + 1;
    if m.namespace.Some? {
      var ns := m.namespace.value;
      var rs := start + |ns| + 1;
      assert text[start..start + |ns|] == ns && text[start + |ns|] == ':' by {
        assert RunEnd(text, start) == start + |ns|;
      }
      assert rs + |m.resource| <= |text| && text[rs..rs + |m.resource|] == m.resource by {
        MatchResource(text, CommandPrefix(t), m.index, m, rs);
      }
      ReadsJoined(text, start, ns, m.resource);
    } else {
      assert start + |m.resource| <= |text| && text[start..start + |m.resource|] == m.resource by {
        MatchResource(text, CommandPrefix(t), m.index, m, start);
      }
    }
  }

  /** Text that reads `ns`, then `:`, then `r` reads `ns:r`. */
  lemma {:induction false} ReadsJoined(text: string, start: nat, ns: string, r: string)
    requires start + |ns| + 1 + |r| <= |text|
    requires text[start..start + |ns|] == ns && text[start + |ns|] == ':'
    requires text[start + |ns| + 1..start + |ns| + 1 + |r|] == r
    ensures text[start..start + |ns| + 1 + |r|] == ns + ":" + r
  {
    assert text[start..start + |ns| + 1 + |r|] ==
      text[start..start + |ns|] + [text[start + |ns|]] + text[start + |ns| + 1..start + |ns| + 1 + |r|];
  }

  /** The calls of one type: identifier to ranges, keys in order of first call, as the `calls` object is filled. */
  type Calls = OMap<string, seq<Range>>

  /** The call of type `t` on each line, `None` where there is none. */
  function LineCalls(lines: seq<TextLine>, t: FileType): (cs: seq<Option<Call>>)
    requires t in SupportedCalls
    ensures |cs| == |lines|
    ensures forall l :: 0 <= l < |lines| ==> cs[l] == ExtractCallFromLine(lines[l], t, l)
  {
    seq(|lines|, l requires 0 <= l < |lines| => ExtractCallFromLine(lines[l], t, l))
  }

  /** The calls added one by one: a new identifier is appended, a known one gets the range at the end of its list. */
  function Group(cs: seq<Option<Call>>): Calls {
    if cs == [] then []
    else
      var calls := Group(cs[..|cs| - 1]);
      match cs[|cs| - 1]
      case None => calls
      case Some(c) => Put(calls, c.id, GetOr(calls, c.id, []) + [c.range])
  }

  /** `getCallsFromDocument(type)`. */
  function CallsOf(lines: seq<TextLine>, t: FileType): Calls
    requires t in SupportedCalls
  {
    Group(LineCalls(lines, t))
  }

  /** The ranges of the calls with identifier `id`, in order. */
  function RangesOf(cs: seq<Option<Call>>, id: string): seq<Range> {
    if cs == [] then []
    else
      var c := cs[|cs| - 1];
      RangesOf(cs[..|cs| - 1], id) + if c.Some? && c.value.id == id then [c.value.range] else []
  }

  /** A range is one of `id`'s exactly when some line has a call of `id` with that range. */
  lemma {:induction false} RangesOfLines(cs: seq<Option<Call>>, id: string, r: Range)
    ensures r in RangesOf(cs, id) <==> exists l :: 0 <= l < |cs| && cs[l] == Some(Call(r, id))
  {
    if cs != [] {
      var n := |cs| - 1;
      var prev := cs[..n];
      RangesOfLines(prev, id, r);
      assert forall l :: 0 <= l < n ==> prev[l] == cs[l];
    }
  }

  /**
   * Grouping: an identifier has an entry exactly when some line calls it,
   * and the entry is that identifier's ranges in line order.
   */
  lemma {:induction false} Grouped(cs: seq<Option<Call>>, id: string)
    ensures Get(Group(cs), id) == if RangesOf(cs, id) == [] then None else Some(RangesOf(cs, id))
  {
    if cs != [] {
      var n := |cs| - 1;
      var prev := cs[..n];
      var calls := Group(prev);
      Grouped(prev, id);
      match cs[n]
      case None =>
        assert Group(cs) == calls;
        assert RangesOf(cs, id) == RangesOf(prev, id) + [];
        assert RangesOf(cs, id) == RangesOf(prev, id);
      case Some(c) =>
        assert Group(cs) == Put(calls, c.id, GetOr(calls, c.id, []) + [c.range]);
        PutGet(calls, c.id, GetOr(calls, c.id, []) + [c.range], id);
        if c.id == id {
          assert RangesOf(cs, id) == RangesOf(prev, id) + [c.range];
        } else {
          assert RangesOf(cs, id) == RangesOf(prev, id) + [];
          assert RangesOf(cs, id) == RangesOf(prev, id);
        }
    }
  }

  /**
   * `getCallsFromDocument` groups the calls by identifier: `id` has an entry
   * exactly when some line calls it, and `r` is in it exactly when the call
   * of some line is `id` at `r`.
   */
  lemma {:induction false} CallsGrouped(lines: seq<TextLine>, t: FileType, id: string, r: Range)
    requires t in SupportedCalls
    ensures Get(CallsOf(lines, t), id).Some? <==>
      exists l :: 0 <= l < |lines| && ExtractCallFromLine(lines[l], t, l).Some? && ExtractCallFromLine(lines[l], t, l).value.id == id
    ensures r in GetOr(CallsOf(lines, t), id, []) <==>
      exists l :: 0 <= l < |lines| && ExtractCallFromLine(lines[l], t, l) == Some(Call(r, id))
  {
    var cs := LineCalls(lines, t);
    Grouped(cs, id);
    RangesOfLines(cs, id, r);
    if exists l :: 0 <= l < |lines| && ExtractCallFromLine(lines[l], t, l).Some? && ExtractCallFromLine(lines[l], t, l).value.id == id {
      var l :| 0 <= l < |lines| && ExtractCallFromLine(lines[l], t, l).Some? && ExtractCallFromLine(lines[l], t, l).value.id == id;
      RangesOfLines(cs, id, cs[l].value.range);
    } else if RangesOf(cs, id) != [] {
      RangesOfLines(cs, id, RangesOf(cs, id)[0]);
    }
  }

  /** The identifiers are keys of an object: each occurs once. */
  lemma {:induction false} GroupKeysDistinct(cs: seq<Option<Call>>)
    ensures DistinctKeys(Keys(Group(cs)))
  {
    if cs != [] {
      var n := |cs| - 1;
      GroupKeysDistinct(cs[..n]);
      match cs[n]
      case None =>
      case Some(c) =>
        var calls := Group(cs[..n]);
        PutDistinct(calls, c.id, GetOr(calls, c.id, []) + [c.range]);
    }
  }

  /** `getDocumentLink(uri, range)`. */
  datatype DocumentLink = DocumentLink(range: Range, target: Uri)

  /** One link to `file` per range, in order. */
  function LinksTo(file: Uri, ranges: seq<Range>): (r: seq<DocumentLink>) {
    if ranges == [] then [] else LinksTo(file, ranges[..|ranges| - 1]) + [DocumentLink(ranges[|ranges| - 1], file)]
  }

  /** The links for one found file: those of the calls of its function path, when that path is called. */
  function FileLinks(calls: Calls, file: Uri, functionPathOf: string -> Option<string>): seq<DocumentLink> {
    match functionPathOf(file.path)
    case None => []
    case Some(p) => LinksTo(file, GetOr(calls, p, []))
  }

  /** The links of `getFunctionLinksFromCalls`, over the found files in order. */
  function FunctionLinks(calls: Calls, found: seq<Uri>, functionPathOf: string -> Option<string>): seq<DocumentLink> {
    if found == [] then []
    else FunctionLinks(calls, found[..|found| - 1], functionPathOf) + FileLinks(calls, found[|found| - 1], functionPathOf)
  }

  /** `LinksTo` makes exactly one link to the file per range. */
  lemma {:induction false} LinksToRanges(file: Uri, ranges: seq<Range>)
    ensures |LinksTo(file, ranges)| == |ranges|
    ensures forall i :: 0 <= i < |ranges| ==> LinksTo(file, ranges)[i] == DocumentLink(ranges[i], file)
  {
    if ranges != [] {
      LinksToRanges(file, ranges[..|ranges| - 1]);
    }
  }

  /**
   * A link goes from a range to a file exactly when the file was found, its
   * function path was extracted and is called, and the range is one of that
   * path's calls; a found file whose path is called gets one link per call.
   */
  lemma {:induction false} FunctionLinksMatch(calls: Calls, found: seq<Uri>, functionPathOf: string -> Option<string>, r: Range, u: Uri)
    ensures DocumentLink(r, u) in FunctionLinks(calls, found, functionPathOf) <==>
      u in found && functionPathOf(u.path).Some? && r in GetOr(calls, functionPathOf(u.path).value, [])
    ensures functionPathOf(u.path).Some? ==>
      |FileLinks(calls, u, functionPathOf)| == |GetOr(calls, functionPathOf(u.path).value, [])|
  {
    if functionPathOf(u.path).Some? {
      LinksToRanges(u, GetOr(calls, functionPathOf(u.path).value, []));
    }
    if found != [] {
      var n := |found| - 1;
      var f := found[n];
      FunctionLinksMatch(calls, found[..n], functionPathOf, r, u);
      assert found == found[..n] + [f];
      if functionPathOf(f.path).Some? {
        LinksToRanges(f, GetOr(calls, functionPathOf(f.path).value, []));
      }
    }
  }

  /** A `CommandHandler` over the lines of a document. */
  class CommandHandler {
    const lines: seq<TextLine>

    constructor (lines: seq<TextLine>)
      ensures this.lines == lines
    {
      this.lines := lines;
    }

    /** `getCallsFromDocument(type)`: the loop over the lines, adding each line's call to its identifier's list. */
    method GetCallsFromDocument(t: FileType) returns (calls: Calls)
      requires t in SupportedCalls
      ensures calls == CallsOf(lines, t)
    {
      calls := [];
      var i := 0;
      while i < |lines|
        invariant 0 <= i <= |lines|
        invariant calls == Group(LineCalls(lines, t)[..i])
      {
        ghost var cs := LineCalls(lines, t);
        assert cs[..i + 1][..i] == cs[..i];
        var call := ExtractCallFromLine(lines[i], t, i);
        if call.Some? {
          var id := call.value.id;
          if id !in Keys(calls) {
            calls := Put(calls, id, []);
          }
          calls := Put(calls, id, GetOr(calls, id, []) + [call.value.range]);
          assert calls == Put(Group(cs[..i]), id, GetOr(Group(cs[..i]), id, []) + [call.value.range]) by {
            PutTwice(Group(cs[..i]), id, call.value.range);
          }
        }
        i := i + 1;
      }
      assert LineCalls(lines, t)[..|lines|] == LineCalls(lines, t);
    }

    /**
     * The matching part of `getFunctionLinksFromCalls`: for each found file
     * whose function path is called, one link per call. `functionPathOf` is
     * the `functionPathMatch` regex applied to the file's path.
     */
    method GetFunctionLinksFromCalls(calls: Calls, found: seq<Uri>, functionPathOf: string -> Option<string>)
      returns (links: seq<DocumentLink>)
      ensures links == FunctionLinks(calls, found, functionPathOf)
    {
      links := [];
      var i := 0;
      while i < |found|
        invariant 0 <= i <= |found|
        invariant links == FunctionLinks(calls, found[..i], functionPathOf)
      {
        assert found[..i + 1][..i] == found[..i];
        var foundFile := found[i];
        var matchedPath := functionPathOf(foundFile.path);
        if matchedPath.Some? {
          var ranges := GetOr(calls, matchedPath.value, []);
          var k := 0;
          while k < |ranges|
            invariant 0 <= k <= |ranges|
            invariant links == FunctionLinks(calls, found[..i], functionPathOf) + LinksTo(foundFile, ranges[..k])
          {
            assert ranges[..k + 1][..k] == ranges[..k];
            links := links + [DocumentLink(ranges[k], foundFile)];
            k := k + 1;
          }
          assert ranges[..|ranges|] == ranges;
        }
        i := i + 1;
      }
      assert found[..|found|] == found;
    }
  }

  /** `if (!calls[id]) calls[id] = []` before the push changes nothing the push does not overwrite. */
  lemma {:induction false} PutTwice(calls: Calls, id: string, range: Range)
    ensures var c := if id !in Keys(calls) then Put(calls, id, []) else calls;
      Put(c, id, GetOr(c, id, []) + [range]) == Put(calls, id, GetOr(calls, id, []) + [range])
  {
    GetKeys(calls, id);
    if id !in Keys(calls) {
      PutGet(calls, id, [], id);
      PutPut(calls, id, [], GetOr(calls, id, []) + [range]);
    }
  }
}
