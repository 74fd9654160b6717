/**
 * Shared vocabulary of the extension model: optional values, the outcome of a
 * call that may throw, the host editor's positions, ranges, URIs and locations,
 * the closed set of resource types, and the few JavaScript string operations
 * the source relies on (startsWith, endsWith, toLowerCase, trim, replace).
 */
module Base {

  /** `undefined` (None) or a value (Some). */
  datatype Option<T> = None | Some(value: T)

  /**
   * The completion of a JavaScript call: it returns a value, or it throws
   * (a TypeError from reading a property of null, or calling a method that
   * the value does not have).
   */
  datatype Completion<T> = Normal(value: T) | Throw

  // ---------------------------------------------------------------------------
  // Resource types
  // ---------------------------------------------------------------------------

  /**
   * The `FileType` enumeration of src/handlers/FileHandler.ts, plus `Dialogue`,
   * which other files of the same snapshot use. Its first member, `None`
   * (numeric value 0, hence falsy), is written `NoType` here so that it does
   * not clash with `Option.None`.
   */
  datatype FileType =
    | NoType
    | AnimationController
    | Animation
    | RenderController
    | Geometry
    | Material
    | Particle
    | Texture
    | ClientEntityIdentifier
    | ServerEntityIdentifier
    | EventIdentifier
    | ComponentGroup
    | Animate
    | SoundEffect
    | McFunction
    | Dialogue

  /** JavaScript truthiness of a `FileType` value: only `None` (0) is falsy. */
  predicate TypeTruthy(t: FileType) {
    t != NoType
  }

  // ---------------------------------------------------------------------------
  // Host editor values
  // ---------------------------------------------------------------------------

  datatype Position = Position(line: int, character: int)

  /** `a.isBefore(b)`: line first, then character. */
  predicate Before(a: Position, b: Position) {
    a.line < b.line || (a.line == b.line && a.character < b.character)
  }

  predicate BeforeOrEqual(a: Position, b: Position) {
    !Before(b, a)
  }

  datatype Range = Range(start: Position, end: Position)

  /**
   * `new Range(a, b)`: the host swaps the two positions when the first comes
   * after the second, so a constructed range never ends before it starts.
   */
  function MkRange(a: Position, b: Position): (r: Range)
    ensures BeforeOrEqual(r.start, r.end)
    ensures {r.start, r.end} == {a, b}
    ensures BeforeOrEqual(a, b) ==> r == Range(a, b)
  {
    if Before(b, a) then Range(b, a) else Range(a, b)
  }

  /** `range.contains(position)`: both ends included. */
  predicate Contains(r: Range, p: Position) {
    BeforeOrEqual(r.start, p) && BeforeOrEqual(p, r.end)
  }

  /** A single-line range from character `s` to character `e` of `line`. */
  function LineRange(line: int, s: int, e: int): Range {
    MkRange(Position(line, s), Position(line, e))
  }

  datatype Uri = Uri(path: string)

  datatype Location = Location(uri: Uri, range: Range)

  /** `new Location(uri, position)`: an empty range at the position. */
  function LocationAt(uri: Uri, p: Position): Location {
    Location(uri, Range(p, p))
  }

  /** The `FileData` record: where an identifier is defined. */
  datatype FileData = FileData(uri: Uri, name: string, range: Range)

  /** The `FilesSearchResponse` record: two lists kept index-aligned. */
  datatype FilesSearchResponse = FilesSearchResponse(files: seq<FileData>, identifiers: seq<string>)

  const EmptyResponse := FilesSearchResponse([], [])

  /** The names of a list of definitions, in order. */
  function Names(files: seq<FileData>): (r: seq<string>)
    ensures |r| == |files|
    ensures forall i :: 0 <= i < |files| ==> r[i] == files[i].name
  {
    if files == [] then [] else Names(files[..|files| - 1]) + [files[|files| - 1].name]
  }

  /** `files[i]` is the definition of `identifiers[i]`, for every i. */
  predicate Aligned(r: FilesSearchResponse) {
    |r.files| == |r.identifiers| &&
    forall i :: 0 <= i < |r.files| ==> r.files[i].name == r.identifiers[i]
  }

  /** Names of a concatenation are the concatenation of the names. */
  lemma {:induction false} NamesAppend(a: seq<FileData>, b: seq<FileData>)
    ensures Names(a + b) == Names(a) + Names(b)
  {
    assert forall i :: 0 <= i < |a + b| ==> Names(a + b)[i] == (Names(a) + Names(b))[i];
  }

  // ---------------------------------------------------------------------------
  // JavaScript string operations
  // ---------------------------------------------------------------------------

  /** `s.startsWith(p)` */
  predicate StartsWith(s: string, p: string) {
    |p| <= |s| && s[..|p|] == p
  }

  /** `s.endsWith(p)` */
  predicate EndsWith(s: string, p: string) {
    |p| <= |s| && s[|s| - |p|..] == p
  }

  /** `s.includes(c)` for a single character. */
  predicate HasChar(s: string, c: char) {
    exists i :: 0 <= i < |s| && s[i] == c
  }

  /** `toLowerCase` on one character (letters A to Z only). */
  function LowerChar(c: char): char {
    if 'A' <= c <= 'Z' then (c as int + 32) as char else c
  }

  /** `s.toLowerCase()`, restricted to the letters A to Z. */
  function Lower(s: string): (r: string)
    ensures |r| == |s|
    ensures forall i :: 0 <= i < |s| ==> r[i] == LowerChar(s[i])
  {
    if s == [] then [] else [LowerChar(s[0])] + Lower(s[1..])
  }

  /** The characters `String.prototype.trim` removes: white space and line terminators. */
  predicate IsJsSpace(c: char) {
    var n := c as int;
    n == 0x09 || n == 0x0A || n == 0x0B || n == 0x0C || n == 0x0D || n == 0x20 ||
    n == 0xA0 || n == 0x1680 || (0x2000 <= n <= 0x200A) || n == 0x2028 || n == 0x2029 ||
    n == 0x202F || n == 0x205F || n == 0x3000 || n == 0xFEFF
  }

  /** `s.trimStart()` */
  function TrimStart(s: string): string {
    if s != [] && IsJsSpace(s[0]) then TrimStart(s[1..]) else s
  }

  /** `s.trimEnd()` */
  function TrimEnd(s: string): string {
    if s != [] && IsJsSpace(s[|s| - 1]) then TrimEnd(s[..|s| - 1]) else s
  }

  /** `trimStart` removes exactly the leading white space: what is left is a suffix that starts with no white space. */
  lemma {:induction false} TrimStartRemovesLeadingSpace(s: string)
    ensures var r := TrimStart(s);
      |r| <= |s| && r == s[|s| - |r|..] &&
      (forall i :: 0 <= i < |s| - |r| ==> IsJsSpace(s[i])) &&
      (r == [] || !IsJsSpace(r[0]))
  {
    if s != [] && IsJsSpace(s[0]) {
      TrimStartRemovesLeadingSpace(s[1..]);
      var r := TrimStart(s[1..]);
      assert TrimStart(s) == r;
      assert s[1..][|s| - 1 - |r|..] == s[|s| - |r|..];
      forall i | 0 <= i < |s| - |r|
        ensures IsJsSpace(s[i])
      {
        if i > 0 {
          assert s[i] == s[1..][i - 1];
        }
      }
    }
  }

  /** `trimEnd` removes exactly the trailing white space: what is left is a prefix that ends with no white space. */
  lemma {:induction false} TrimEndRemovesTrailingSpace(s: string)
    ensures var r := TrimEnd(s);
      |r| <= |s| && r == s[..|r|] &&
      (forall i :: |r| <= i < |s| ==> IsJsSpace(s[i])) &&
      (r == [] || !IsJsSpace(r[|r| - 1]))
  {
    if s != [] && IsJsSpace(s[|s| - 1]) {
      TrimEndRemovesTrailingSpace(s[..|s| - 1]);
    }
  }

  /** `s.trim()` */
  function Trim(s: string): string {
    TrimEnd(TrimStart(s))
  }

  /** `sub` occurs in `s` at index `j`. */
  predicate OccursAt(s: string, sub: string, j: int) {
    0 <= j && j + |sub| <= |s| && s[j..j + |sub|] == sub
  }

  lemma {:induction false} OccursShift(s: string, sub: string, j: int)
    requires s != [] && j >= 1
    ensures OccursAt(s, sub, j) <==> OccursAt(s[1..], sub, j - 1)
  {
    if j + |sub| <= |s| {
      assert s[1..][j - 1..j - 1 + |sub|] == s[j..j + |sub|];
    }
  }

  /** `s.indexOf(sub)`: the first index at which `sub` occurs, or None. */
  function IndexOf(s: string, sub: string): (r: Option<nat>)
    ensures r.Some? ==> OccursAt(s, sub, r.value)
    ensures r.Some? ==> forall j :: 0 <= j < r.value ==> !OccursAt(s, sub, j)
    ensures r.None? ==> forall j :: !OccursAt(s, sub, j)
  {
    if |sub| > |s| then None
    else if s[..|sub|] == sub then Some(0)
    else
      var rest := IndexOf(s[1..], sub);
      assert forall j :: j >= 1 ==> (OccursAt(s, sub, j) <==> OccursAt(s[1..], sub, j - 1)) by {
        forall j | j >= 1 ensures OccursAt(s, sub, j) <==> OccursAt(s[1..], sub, j - 1) {
          OccursShift(s, sub, j);
        }
      }
      assert !OccursAt(s, sub, 0);
      match rest
      case None => None
      case Some(k) => Some(k + 1)
  }

  /** `text.substring(a, b)`: both ends clamped to the text, swapped when out of order. */
  function Substring(text: string, a: int, b: int): (r: string)
    ensures 0 <= a <= b <= |text| ==> r == text[a..b]
  {
    var a' := if a < 0 then 0 else if a > |text| then |text| else a;
    var b' := if b < 0 then 0 else if b > |text| then |text| else b;
    if a' <= b' then text[a'..b'] else text[b'..a']
  }

  /** `s.replace(sub, by)` with a string pattern: only the first occurrence is replaced. */
  function ReplaceFirst(s: string, sub: string, repl: string): string {
    match IndexOf(s, sub)
    case None => s
    case Some(k) => s[..k] + repl + s[k + |sub|..]
  }

  /** Removing one occurrence of a substring shortens the string by its length. */
  lemma {:induction false} ReplaceFirstLength(s: string, sub: string)
    requires IndexOf(s, sub).Some?
    ensures |ReplaceFirst(s, sub, "")| == |s| - |sub|
  {
  }

  /** `parts.join(sep)` for a one-character separator. */
  function Join(parts: seq<string>, sep: char): string
    requires |parts| >= 1
  {
    if |parts| == 1 then parts[0] else parts[0] + [sep] + Join(parts[1..], sep)
  }

  /** `s.split(sep)` for a one-character separator: the pieces between separators, in order. */
  function Split(s: string, sep: char): (parts: seq<string>)
    ensures |parts| >= 1
    ensures forall i, j :: 0 <= i < |parts| && 0 <= j < |parts[i]| ==> parts[i][j] != sep
    ensures Join(parts, sep) == s
  {
    if s == [] then [[]]
    else
      var rest := Split(s[1..], sep);
      if s[0] == sep then
        assert Join([[]] + rest, sep) == [sep] + Join(rest, sep) by {
          assert ([[]] + rest)[1..] == rest;
        }
        [[]] + rest
      else
        var parts := [[s[0]] + rest[0]] + rest[1..];
        assert Join(parts, sep) == [s[0]] + Join(rest, sep) by {
          if |rest| > 1 {
            assert parts[1..] == rest[1..];
          }
        }
        parts
  }

  predicate AllDigits(s: string) {
    forall i :: 0 <= i < |s| ==> '0' <= s[i] <= '9'
  }

  /** Splitting a separator-free piece followed by a separator (or nothing) yields that piece first. */
  lemma {:induction false} SplitHead(p: string, sep: char, q: string)
    requires forall i :: 0 <= i < |p| ==> p[i] != sep
    requires q == [] || q[0] == sep
    ensures Split(p + q, sep)[0] == p
    ensures q != [] ==> Split(p + q, sep)[1..] == Split(q[1..], sep)
  {
    if p == [] {
      assert p + q == q;
      if q != [] {
        assert Split(q, sep) == [[]] + Split(q[1..], sep);
      }
    } else {
      SplitHead(p[1..], sep, q);
      assert (p + q)[1..] == p[1..] + q;
      assert [p[0]] + p[1..] == p;
    }
  }

  /** The value of a string of decimal digits. */
  function DigitsValue(s: string): nat
    requires AllDigits(s)
  {
    if s == [] then 0 else 10 * DigitsValue(s[..|s| - 1]) + (s[|s| - 1] as int - '0' as int)
  }

  /**
   * `Number(s)` for the strings this model gives a value: after trimming, the
   * empty string is 0 and a run of decimal digits is its value; any other string
   * is NaN (None).
   */
  function NumberOf(s: string): (r: Option<nat>)
    ensures AllDigits(Trim(s)) <==> r.Some?
    ensures Trim(s) == [] ==> r == Some(0)
  {
    var t := Trim(s);
    if AllDigits(t) then Some(DigitsValue(t)) else None
  }

  /** A string of digits is its own trimmed form, so `Number` reads its digits. */
  lemma {:induction false} NumberOfDigits(s: string)
    requires AllDigits(s)
    ensures NumberOf(s) == Some(DigitsValue(s))
  {
    if s != [] {
      assert !IsJsSpace(s[0]) && !IsJsSpace(s[|s| - 1]);
    }
    assert TrimStart(s) == s;
    assert TrimEnd(s) == s;
  }

  /** The decimal digits of a natural number (`String(n)`). */
  function NatToString(n: nat): (r: string)
    ensures r != []
    ensures AllDigits(r)
    ensures DigitsValue(r) == n
    ensures r[0] == '0' ==> n == 0
  {
    if n < 10 then [('0' as int + n) as char]
    else
      var prefix := NatToString(n / 10);
      var r := prefix + [('0' as int + n % 10) as char];
      assert r[..|r| - 1] == prefix;
      r
  }

  /** The distinct elements of `s`, in order of first occurrence. */
  function Dedup(s: seq<string>): (r: seq<string>)
    ensures forall x :: x in r <==> x in s
    ensures forall i, j :: 0 <= i < j < |r| ==> r[i] != r[j]
    ensures |r| <= |s|
  {
    if s == [] then []
    else
      var d := Dedup(s[..|s| - 1]);
      if s[|s| - 1] in d then d else d + [s[|s| - 1]]
  }
}
