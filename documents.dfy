/**
 * What the extension reads from the host and from `jsonc-parser`, reduced to
 * values: an opened text document, the result of opening and parsing a file,
 * and the workspace search. Also the small conversions every extractor shares:
 * a syntax-tree node to an editor range, the `description.identifier` check,
 * and the release number read from `format_version`.
 */
module Documents {
  import opened Base
  import opened Json

  /** `findNodeAtLocation(tree, path)`: the node at a path of the parsed tree, if any. */
  type Locator = Path -> Option<Node>

  /** An opened `TextDocument`: its uri, file name and the host's `positionAt`. */
  datatype TextDocument = TextDocument(uri: Uri, fileName: string, positionAt: int -> Position)

  /**
   * The result of `getAndParseFileContents`: the opened document, the parsed
   * data, and the syntax tree. A file whose parse throws has data `null` and
   * no tree.
   */
  datatype ParsedFile = ParsedFile(document: TextDocument, data: JSON, node: Option<Locator>)

  /** The `node && data` guard every extractor applies before reading a file. */
  predicate Loaded(f: ParsedFile) {
    f.node.Some? && Truthy(f.data)
  }

  /**
   * The workspace as the extractors see it: `findFiles(glob)` (already in the
   * order the extension would visit the files) and opening plus parsing a file.
   */
  datatype Workspace = Workspace(findFiles: string -> seq<Uri>, open: Uri -> ParsedFile)

  /**
   * `nodeToRange`: from one character after the node's first character to one
   * character before its end, so a string node's range excludes its quotes.
   */
  function NodeToRange(document: TextDocument, node: Node): (r: Range)
    ensures {r.start, r.end} ==
            {document.positionAt(node.offset + 1), document.positionAt(node.offset + node.length - 1)}
    ensures BeforeOrEqual(r.start, r.end)
  {
    MkRange(document.positionAt(node.offset + 1), document.positionAt(node.offset + (node.length - 1)))
  }

  /** `positionAt` never moves backwards as the offset grows. */
  ghost predicate Monotone(positionAt: int -> Position) {
    forall a: int, b: int :: a <= b ==> BeforeOrEqual(positionAt(a), positionAt(b))
  }

  /**
   * For a node of at least two characters (a string with its quotes, an
   * object with its braces) the range starts exactly one character inside its
   * start and ends exactly one character inside its end.
   */
  lemma {:induction false} NodeToRangeInside(document: TextDocument, node: Node)
    requires Monotone(document.positionAt) && node.length >= 2
    ensures NodeToRange(document, node).start == document.positionAt(node.offset + 1)
    ensures NodeToRange(document, node).end == document.positionAt(node.offset + node.length - 1)
  {
    var a, b := node.offset + 1, node.offset + node.length - 1;
    assert BeforeOrEqual(document.positionAt(a), document.positionAt(b));
  }

  /**
   * `verifyDescriptionIdentifier(d)`, which evaluates
   * `d['description'] && d['description']['identifier']`: the identifier
   * string when both are truthy. Reading a property of `null` throws.
   */
  function DescriptionIdentifier(d: JSON): (r: Completion<Option<string>>)
    ensures r.Throw? <==> d.JNull?
    ensures r.Normal? && r.value.Some? <==>
            !d.JNull? && Present(Get(d, "description")) &&
            Present(Get(Get(d, "description").value, "identifier")) &&
            Get(Get(d, "description").value, "identifier").value.JStr?
    ensures r.Normal? && r.value.Some? ==>
            r.value.value != "" &&
            Get(Get(d, "description").value, "identifier") == Some(JStr(r.value.value))
  {
    if d.JNull? then Throw
    else
      var description := Get(d, "description");
      if !Present(description) then Normal(None)
      else
        var identifier := Get(description.value, "identifier");
        if Present(identifier) && identifier.value.JStr? then Normal(Some(identifier.value.s))
        else Normal(None)
  }

  /**
   * The release number of a geometry file: `Number(format_version.split('.')[1])`.
   * A falsy or absent `format_version` gives no release; a truthy one that is
   * not a string throws, because it has no `split`. A version with no second
   * component, or a component that is not a number, gives no release (NaN).
   */
  function Release(data: JSON): (r: Completion<Option<nat>>)
    ensures r.Throw? <==> Present(Get(data, "format_version")) && !Get(data, "format_version").value.JStr?
    ensures r.Normal? && r.value.Some? ==> Present(Get(data, "format_version"))
  {
    var formatVersion := Get(data, "format_version");
    if !Present(formatVersion) then Normal(None)
    else if !formatVersion.value.JStr? then Throw
    else Normal(VersionRelease(formatVersion.value.s))
  }

  /** `Number(version.split('.')[1])`; a missing second component reads as NaN. */
  function VersionRelease(version: string): (r: Option<nat>)
    ensures r.Some? <==> |Split(version, '.')| >= 2 && AllDigits(Trim(Split(version, '.')[1]))
    ensures r.Some? && AllDigits(Split(version, '.')[1]) ==> r.value == DigitsValue(Split(version, '.')[1])
  {
    var parts := Split(version, '.');
    if |parts| < 2 then None else NumberOf(parts[1])
  }

  /** `if (release)`: a release of 0 or NaN selects neither schema. */
  predicate ReleaseTruthy(r: Option<nat>) {
    r.Some? && r.value != 0
  }

  /**
   * The release is the number written between the first and second dots of
   * the version, whatever the first component is and whatever follows.
   */
  lemma {:induction false} VersionReleaseReadsSecondComponent(major: string, minor: string, rest: string)
    requires forall i :: 0 <= i < |major| ==> major[i] != '.'
    requires AllDigits(minor)
    requires rest == [] || rest[0] == '.'
    ensures VersionRelease(major + "." + minor + rest) == Some(DigitsValue(minor))
  {
    var v := major + "." + minor + rest;
    assert v == major + ("." + (minor + rest));
    SplitHead(major, '.', "." + (minor + rest));
    assert ("." + (minor + rest))[1..] == minor + rest;
    assert forall i :: 0 <= i < |minor| ==> minor[i] != '.';
    SplitHead(minor, '.', rest);
    NumberOfDigits(minor);
  }
}
