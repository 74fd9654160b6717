/**
 * What the cursor-context code shares: the parent and key read off a JSON
 * path, the word under the cursor with its quotes removed, and the ordered
 * rule tables that classify a word by its prefix and its parent key, where a
 * later matching rule overrides an earlier one.
 */
module Cursor {
  import opened Base
  import opened Json

  /** `path[i]`: `undefined` outside the path. */
  function SegmentAt(path: Path, i: int): (r: Option<Segment>)
    ensures r.Some? <==> 0 <= i < |path|
  {
    if 0 <= i < |path| then Some(path[i]) else None
  }

  /** A parent or key compared with `===` against a string. */
  predicate IsKey(s: Option<Segment>, k: string) {
    s == Some(Key(k))
  }

  /**
   * `getParentAndKeyFromPath` / `getParentAndKey`: the key is the last
   * segment; the parent is the one before it, or, when that is missing or an
   * array index and the path is longer than three, the one before that.
   */
  function ParentAndKey(path: Path): (pk: (Option<Segment>, Option<Segment>))
    ensures pk.1.Some? <==> path != []
    ensures path != [] ==> pk.1.value == path[|path| - 1]
    ensures pk.0.Some? ==>
      (|path| >= 2 && pk.0.value == path[|path| - 2] && (path[|path| - 2].Key? || |path| <= 3)) ||
      (|path| > 3 && path[|path| - 2].Index? && pk.0.value == path[|path| - 3])
    ensures |path| >= 2 && path[|path| - 2].Key? ==> pk.0 == Some(path[|path| - 2])
    ensures |path| > 3 ==> pk.0.Some?
  {
    var parent := SegmentAt(path, |path| - 2);
    var parent := if (parent.None? || parent.value.Index?) && |path| > 3 then SegmentAt(path, |path| - 3) else parent;
    (parent, SegmentAt(path, |path| - 1))
  }

  /**
   * A key inside an array element reads the array's own key as its parent,
   * once the path is deeper than three segments.
   */
  lemma {:induction false} ParentSkipsOneIndex(prefix: Path, parentKey: string, i: int, key: Segment)
    requires |prefix| >= 1
    ensures ParentAndKey(prefix + [Key(parentKey), Index(i), key]) == (Some(Key(parentKey)), Some(key))
  {
    var path := prefix + [Key(parentKey), Index(i), key];
    assert path[|path| - 2] == Index(i) && path[|path| - 3] == Key(parentKey);
  }

  // ---------------------------------------------------------------------------
  // The word under the cursor
  // ---------------------------------------------------------------------------

  /** A word and its range. */
  datatype Word = Word(text: string, range: Range)

  /** A word written as a JSON string: it starts and ends with a quote. */
  predicate Quoted(t: string) {
    StartsWith(t, "\"") && EndsWith(t, "\"")
  }

  /** `new Range(start.translate(0, 1), end.translate(0, -1))`. */
  function Inner(r: Range): Range {
    MkRange(Position(r.start.line, r.start.character + 1), Position(r.end.line, r.end.character - 1))
  }

  /**
   * The quote stripping of `getSelectionText` / `getCurrentText`: a quoted
   * word's range loses one character at each end and its text, read again
   * from the document, is lowercased; any other word is kept as it is.
   * `textIn` is the document's `getText(range)`.
   */
  function StripQuotes(range: Range, textIn: Range -> string): (w: Word)
    ensures Quoted(textIn(range)) ==> w.range == Inner(range) && |w.text| == |textIn(Inner(range))|
    ensures !Quoted(textIn(range)) ==> w == Word(textIn(range), range)
  {
    var text := textIn(range);
    if Quoted(text) then Word(Lower(textIn(Inner(range))), Inner(range)) else Word(text, range)
  }

  /**
   * On a one-line word of at least two characters whose document reads the
   * inner range as the characters between the quotes, the stripped word is
   * the text between the quotes, lowercased, and its range is two
   * characters shorter.
   */
  lemma {:induction false} StripQuotesInside(range: Range, textIn: Range -> string)
    requires range.start.line == range.end.line
    requires range.start.character + 2 <= range.end.character
    requires var t := textIn(range); Quoted(t) && |t| >= 2 && textIn(Inner(range)) == t[1..|t| - 1]
    ensures var t := textIn(range); StripQuotes(range, textIn).text == Lower(t[1..|t| - 1])
    ensures StripQuotes(range, textIn).range.start == Position(range.start.line, range.start.character + 1)
    ensures StripQuotes(range, textIn).range.end == Position(range.end.line, range.end.character - 1)
  {
  }

  // ---------------------------------------------------------------------------
  // Ordered classification rules
  // ---------------------------------------------------------------------------

  /** One row of a `checkGroups` table: the result, the accepted prefixes and the accepted parents. */
  datatype Rule<T> = Rule(result: T, prefixes: Option<seq<string>>, parents: Option<seq<string>>)

  /** `prefixes.find(p => text.startsWith(p))`: the first prefix the text starts with. */
  function FindPrefix(prefixes: seq<string>, text: string): (r: Option<string>)
    ensures r.Some? ==> r.value in prefixes && StartsWith(text, r.value)
    ensures r.None? <==> forall p :: p in prefixes ==> !StartsWith(text, p)
  {
    if prefixes == [] then None
    else if StartsWith(text, prefixes[0]) then Some(prefixes[0])
    else FindPrefix(prefixes[1..], text)
  }

  /** `!!prefixes.find(...)`: the found prefix is truthy, that is not empty. */
  predicate UsingPrefix<T>(rule: Rule<T>, text: string) {
    rule.prefixes.Some? && FindPrefix(rule.prefixes.value, text).Some? &&
    FindPrefix(rule.prefixes.value, text).value != ""
  }

  /** `typeof parent === 'string' && parentKeys.includes(parent)`. */
  predicate IsChild<T>(rule: Rule<T>, parent: Option<Segment>) {
    rule.parents.Some? && parent.Some? && parent.value.Key? && parent.value.key in rule.parents.value
  }

  /** A rule with prefixes and parents needs both; a rule with only one kind needs that one. */
  predicate RuleMatches<T>(rule: Rule<T>, text: string, parent: Option<Segment>) {
    if rule.parents.Some? && rule.prefixes.Some? then IsChild(rule, parent) && UsingPrefix(rule, text)
    else if rule.parents.None? && rule.prefixes.Some? then UsingPrefix(rule, text)
    else if rule.parents.Some? && rule.prefixes.None? then IsChild(rule, parent)
    else false
  }

  /** The type after the loop over the table: the result of the last matching rule, or `init`. */
  function LastMatch<T>(rules: seq<Rule<T>>, text: string, parent: Option<Segment>, init: T): T {
    if rules == [] then init
    else if RuleMatches(rules[|rules| - 1], text, parent) then rules[|rules| - 1].result
    else LastMatch(rules[..|rules| - 1], text, parent, init)
  }

  /** A matching rule decides the type when no later rule matches. */
  lemma {:induction false} LastMatchWins<T>(rules: seq<Rule<T>>, text: string, parent: Option<Segment>, init: T, i: int)
    requires 0 <= i < |rules| && RuleMatches(rules[i], text, parent)
    requires forall j :: i < j < |rules| ==> !RuleMatches(rules[j], text, parent)
    ensures LastMatch(rules, text, parent, init) == rules[i].result
  {
    if i < |rules| - 1 {
      var prev := rules[..|rules| - 1];
      assert forall j :: i < j < |prev| ==> prev[j] == rules[j];
      LastMatchWins(prev, text, parent, init, i);
    }
  }

  /** When no rule matches the type stays `init`. */
  lemma {:induction false} LastMatchNone<T>(rules: seq<Rule<T>>, text: string, parent: Option<Segment>, init: T)
    requires forall j :: 0 <= j < |rules| ==> !RuleMatches(rules[j], text, parent)
    ensures LastMatch(rules, text, parent, init) == init
  {
    if rules != [] {
      var prev := rules[..|rules| - 1];
      assert forall j :: 0 <= j < |prev| ==> prev[j] == rules[j];
      LastMatchNone(prev, text, parent, init);
    }
  }

  /** The type is `init` or the result of a matching rule. */
  lemma {:induction false} LastMatchFrom<T>(rules: seq<Rule<T>>, text: string, parent: Option<Segment>, init: T)
    ensures LastMatch(rules, text, parent, init) == init ||
      exists i :: 0 <= i < |rules| && RuleMatches(rules[i], text, parent) &&
        LastMatch(rules, text, parent, init) == rules[i].result
  {
    if rules != [] {
      var prev := rules[..|rules| - 1];
      LastMatchFrom(prev, text, parent, init);
      assert forall j :: 0 <= j < |prev| ==> prev[j] == rules[j];
    }
  }

  /** When some rule matches, the type is the result of a matching rule, never `init` as such. */
  lemma {:induction false} LastMatchSome<T>(rules: seq<Rule<T>>, text: string, parent: Option<Segment>, init: T)
    requires exists j :: 0 <= j < |rules| && RuleMatches(rules[j], text, parent)
    ensures
      exists i :: 0 <= i < |rules| && RuleMatches(rules[i], text, parent) &&
        LastMatch(rules, text, parent, init) == rules[i].result
  {
    var n := |rules| - 1;
    if !RuleMatches(rules[n], text, parent) {
      var prev := rules[..n];
      assert forall j :: 0 <= j < n ==> prev[j] == rules[j];
      LastMatchSome(prev, text, parent, init);
    }
  }

  /** The `for` loop over a table, overwriting the type at each matching rule. */
  method ApplyRules<T>(rules: seq<Rule<T>>, text: string, parent: Option<Segment>, init: T) returns (t: T)
    ensures t == LastMatch(rules, text, parent, init)
  {
    t := init;
    var i := 0;
    while i < |rules|
      invariant 0 <= i <= |rules|
      invariant t == LastMatch(rules[..i], text, parent, init)
    {
      assert rules[..i + 1][..i] == rules[..i];
      if RuleMatches(rules[i], text, parent) {
        t := rules[i].result;
      }
      i := i + 1;
    }
    assert rules[..|rules|] == rules;
  }
}
