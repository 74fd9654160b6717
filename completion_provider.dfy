/**
 * `BedrockCompletionProvider` (src/providers/CompletionProvider.ts):
 * completion of pointer text in client and behaviour entity files. The word
 * under the cursor is classified by the shared provider; its type picks the
 * identifiers to offer, and those that start with the typed text are offered
 * once each, in their order, with the word's range.
 *
 * The texture paths `handleTextures` computes from the texture files found
 * and the document's path are an input.
 */
module CompletionProvider {
  import opened Base
  import opened Json
  import opened Documents
  import opened Cursor
  import opened SharedProvider
  import FileSearcher
  import DefinitionProvider
  import FileHandler

  // ---------------------------------------------------------------------------
  // filterAndCompletion
  // ---------------------------------------------------------------------------

  /** A completion item as `completionItem(text, range)` builds it: a value named and inserted as the text, on the range. */
  datatype CompletionItem = CompletionItem(text: string, insertText: string, range: Range)

  /** `identifiers.filter(i => i.startsWith(text))`. */
  function StartingWith(identifiers: seq<string>, text: string): (r: seq<string>)
    ensures forall x :: x in r <==> x in identifiers && StartsWith(x, text)
    ensures |r| <= |identifiers|
  {
    if identifiers == [] then []
    else
      var prev := StartingWith(identifiers[..|identifiers| - 1], text);
      var last := identifiers[|identifiers| - 1];
      assert identifiers == identifiers[..|identifiers| - 1] + [last];
      if StartsWith(last, text) then prev + [last] else prev
  }

  /** `arr.filter((k, i, arr) => arr.indexOf(k) === i)` over the first `n` elements: the elements at their first index. */
  function FirstOccurrences(arr: seq<string>, n: nat): seq<string>
    requires n <= |arr|
  {
    if n == 0 then []
    else
      var prev := FirstOccurrences(arr, n - 1);
      if FileSearcher.FirstIndex(arr, arr[n - 1]) == Some(n - 1) then prev + [arr[n - 1]] else prev
  }

  /** Keeping each element at its first index is removing duplicates and keeping first occurrences. */
  lemma {:induction false} FirstOccurrencesDedup(arr: seq<string>, n: nat)
    requires n <= |arr|
    ensures FirstOccurrences(arr, n) == Dedup(arr[..n])
  {
    if n > 0 {
      FirstOccurrencesDedup(arr, n - 1);
      var x := arr[n - 1];
      assert arr[..n][..n - 1] == arr[..n - 1];
      assert arr[..n][n - 1] == x;
      var i := FileSearcher.FirstIndex(arr, x);
      if i == Some(n - 1) {
        assert x !in arr[..n - 1];
      } else {
        assert x in arr[..n - 1];
      }
    }
  }

  /** `filterAndCompletion(identifiers, text)`: filter by the typed text, drop repeats, make items on the word's range. */
  function FilterAndCompletion(identifiers: seq<string>, text: string, range: Range): seq<CompletionItem> {
    var matching := StartingWith(identifiers, text);
    var unique := FirstOccurrences(matching, |matching|);
    seq(|unique|, i requires 0 <= i < |unique| => CompletionItem(unique[i], unique[i], range))
  }

  /**
   * The items offered are the identifiers that start with the typed text,
   * each exactly once, in the order of their first occurrence; every item
   * inserts its label and replaces the word's range.
   */
  lemma {:induction false} FilterAndCompletionItems(identifiers: seq<string>, text: string, range: Range)
    ensures var items := FilterAndCompletion(identifiers, text, range);
      |items| == |Dedup(StartingWith(identifiers, text))| &&
      forall i :: 0 <= i < |items| ==>
        items[i] == CompletionItem(Dedup(StartingWith(identifiers, text))[i], Dedup(StartingWith(identifiers, text))[i], range)
    ensures var items := FilterAndCompletion(identifiers, text, range);
      forall x :: (exists i :: 0 <= i < |items| && items[i].text == x) <==> x in identifiers && StartsWith(x, text)
    ensures var items := FilterAndCompletion(identifiers, text, range);
      forall i, j :: 0 <= i < j < |items| ==> items[i].text != items[j].text
  {
    var matching := StartingWith(identifiers, text);
    FirstOccurrencesDedup(matching, |matching|);
    assert matching[..|matching|] == matching;
    var unique := Dedup(matching);
    var items := FilterAndCompletion(identifiers, text, range);
    forall x
      ensures (exists i :: 0 <= i < |items| && items[i].text == x) <==> x in identifiers && StartsWith(x, text)
    {
      if x in unique {
        var i :| 0 <= i < |unique| && unique[i] == x;
        assert items[i].text == x;
      }
    }
  }

  // ---------------------------------------------------------------------------
  // Geometry names without their parent
  // ---------------------------------------------------------------------------

  /** The characters `.` of a regular expression does not match. */
  predicate LineTerminator(c: char) {
    c == '\n' || c == '\r' || c == '\U{2028}' || c == '\U{2029}'
  }

  /** The end of the line that starts at `i`: the next line terminator, or the end of the text. */
  function LineEnd(s: string, i: nat): (e: nat)
    requires i <= |s|
    decreases |s| - i
    ensures i <= e <= |s|
    ensures forall k :: i <= k < e ==> !LineTerminator(s[k])
    ensures e < |s| ==> LineTerminator(s[e])
  {
    if i == |s| || LineTerminator(s[i]) then i else LineEnd(s, i + 1)
  }

  /** The last `:` in `s[i..e]`. */
  function LastColon(s: string, i: nat, e: nat): (c: Option<nat>)
    requires i <= e <= |s|
    decreases e - i
    ensures c.Some? ==> i <= c.value < e && s[c.value] == ':' && forall k :: c.value < k < e ==> s[k] != ':'
    ensures c.None? ==> forall k :: i <= k < e ==> s[k] != ':'
  {
    if i == e then None
    else if s[e - 1] == ':' then Some(e - 1)
    else LastColon(s, i, e - 1)
  }

  /**
   * The first group of the first match of the pattern `(.*)\:.*` from the line that
   * starts at `i`: the first line with a `:` read up to its last `:`.
   */
  function ParentedMatch(s: string, i: nat): Option<string>
    requires i <= |s|
    decreases |s| - i
  {
    var e := LineEnd(s, i);
    match LastColon(s, i, e)
    case Some(c) => Some(s[i..c])
    case None => if e == |s| then None else ParentedMatch(s, e + 1)
  }

  /** A geometry identifier as offered: the first group of the match, or the identifier itself when there is no match. */
  function GeometryLabel(geo: string): string {
    match ParentedMatch(geo, 0)
    case Some(g) => g
    case None => geo
  }

  /** `geometries.map(geo => ...)`. */
  function GeometryLabels(geometries: seq<string>): (r: seq<string>)
    ensures |r| == |geometries|
    ensures forall i :: 0 <= i < |r| ==> r[i] == GeometryLabel(geometries[i])
  {
    seq(|geometries|, i requires 0 <= i < |geometries| => GeometryLabel(geometries[i]))
  }

  /**
   * On a one-line identifier, a parented geometry `name:parent` is offered
   * as what comes before its last `:`, and an identifier with no `:` as it is.
   */
  lemma {:induction false} GeometryLabelCutsLastColon(geo: string)
    requires forall k :: 0 <= k < |geo| ==> !LineTerminator(geo[k])
    ensures (forall k :: 0 <= k < |geo| ==> geo[k] != ':') ==> GeometryLabel(geo) == geo
    ensures (exists k :: 0 <= k < |geo| && geo[k] == ':') ==>
      exists c :: 0 <= c < |geo| && geo[c] == ':' && GeometryLabel(geo) == geo[..c] &&
        forall k :: c < k < |geo| ==> geo[k] != ':'
  {
    assert LineEnd(geo, 0) == |geo|;
    match LastColon(geo, 0, |geo|)
    case Some(c) =>
      assert GeometryLabel(geo) == geo[..c];
    case None =>
  }

  /** A multi-line identifier is cut on the first line that has a `:`; lines before it are dropped. */
  lemma {:induction false} GeometryLabelFirstColonLine(geo: string, e: nat)
    requires e < |geo| && LineTerminator(geo[e])
    requires forall k :: 0 <= k < e ==> !LineTerminator(geo[k]) && geo[k] != ':'
    ensures ParentedMatch(geo, 0) == ParentedMatch(geo, e + 1)
  {
    assert LineEnd(geo, 0) == e by {
      LineEndAt(geo, 0, e);
    }
  }

  /** The line that starts at `i` ends at the first terminator from `i`. */
  lemma {:induction false} LineEndAt(s: string, i: nat, e: nat)
    requires i <= e < |s| && LineTerminator(s[e])
    requires forall k :: i <= k < e ==> !LineTerminator(s[k])
    decreases e - i
    ensures LineEnd(s, i) == e
  {
    if i < e {
      LineEndAt(s, i + 1, e);
    }
  }

  // ---------------------------------------------------------------------------
  // The dispatch
  // ---------------------------------------------------------------------------

  /** Where the identifiers offered for a type come from. */
  datatype Source =
    | Listed(folder: string)
    | GeometryNames
    | TextureNames

  /**
   * The source for a type: client entity identifiers complete with server
   * entities, render controllers, geometry, particles and textures in client
   * files; animations and animation controllers in either kind of file; no
   * other type is completed.
   */
  function SourceFor(kind: FileKind, t: TextType): (s: Option<Source>)
    ensures s.Some? && s.value.Listed? ==> DefinitionProvider.ByFileTypeName(s.value.folder)
  {
    if kind.isClientFile && t == ClientEntityIdentifierText then Some(Listed("server_entity"))
    else if kind.isClientFile && t == RenderControllerText then Some(Listed("render_controllers"))
    else if kind.isClientFile && t == GeometryText then Some(GeometryNames)
    else if kind.isClientFile && t == ParticleText then Some(Listed("particles"))
    else if kind.isClientFile && t == TextureText then Some(TextureNames)
    else if (kind.isClientFile || kind.isBehaviourFile) && t == AnimationText then Some(Listed("animations"))
    else if (kind.isClientFile || kind.isBehaviourFile) && t == AnimationControllerText then Some(Listed("animation_controllers"))
    else None
  }

  /** The identifiers a source offers; reading the geometries can throw. */
  function SourceIdentifiers(ws: Workspace, s: Source, textures: seq<string>): Completion<seq<string>>
    requires s.Listed? ==> DefinitionProvider.ByFileTypeName(s.folder)
  {
    match s
    case Listed(folder) => Normal(DefinitionProvider.FolderResponse(ws, folder).identifiers)
    case GeometryNames =>
      (match DefinitionProvider.GeometriesResponse(ws)
       case Normal(response) => Normal(GeometryLabels(response.identifiers))
       case Throw => Throw)
    case TextureNames => Normal(textures)
  }

  /**
   * `provideCompletionItems(document, position)`: nothing without an editor,
   * outside client and behaviour entity files, without a non-empty word, for
   * a word that is not pointer text or for a type with no source; otherwise
   * the filtered identifiers of its source.
   */
  function Completions(ws: Workspace, hasEditor: bool, pathKeys: Path, wordRange: Option<Range>,
                       textIn: Range -> string, textures: seq<string>): Completion<Option<seq<CompletionItem>>>
  {
    var kind := CurrentFileType(pathKeys);
    if !hasEditor || (!kind.isClientFile && !kind.isBehaviourFile) then Normal(None)
    else
      var (parent, key) := ParentAndKey(pathKeys);
      var w := CurrentText(wordRange, textIn);
      if w.None? || w.value.text == "" then Normal(None)
      else
        match TextTypeOf(w.value.text, parent, key, pathKeys)
        case None => Normal(None)
        case Some(t) =>
          match SourceFor(kind, t)
          case None => Normal(None)
          case Some(s) =>
            match SourceIdentifiers(ws, s, textures)
            case Normal(ids) => Normal(Some(FilterAndCompletion(ids, w.value.text, w.value.range)))
            case Throw => Throw
  }

  /** `provideCompletionItems`, the chain of `if`s as written. */
  method ProvideCompletionItems(ws: Workspace, hasEditor: bool, pathKeys: Path, wordRange: Option<Range>,
                                textIn: Range -> string, textures: seq<string>)
    returns (r: Completion<Option<seq<CompletionItem>>>)
    ensures r == Completions(ws, hasEditor, pathKeys, wordRange, textIn, textures)
  {
    if !hasEditor {
      return Normal(None);
    }
    var kind := CurrentFileType(pathKeys);
    var isClientFile, isBehaviourFile := kind.isClientFile, kind.isBehaviourFile;
    if !isClientFile && !isBehaviourFile {
      return Normal(None);
    }
    var (parent, key) := ParentAndKey(pathKeys);
    var w := CurrentText(wordRange, textIn);
    if w.None? || w.value.text == "" {
      return Normal(None);
    }
    var currText, currWordRange := w.value.text, w.value.range;
    var cls := CurrentTextType(currText, parent, key, pathKeys);
    if cls.isPointerText {
      var t := cls.type_.value;
      if isClientFile {
        if t == ClientEntityIdentifierText {
          var entities := DefinitionProvider.FetchByFileType(ws, "server_entity");
          return Normal(Some(FilterAndCompletion(entities.identifiers, currText, currWordRange)));
        } else if t == RenderControllerText {
          var renderControllers := DefinitionProvider.FetchByFileType(ws, "render_controllers");
          return Normal(Some(FilterAndCompletion(renderControllers.identifiers, currText, currWordRange)));
        } else if t == GeometryText {
          var geometries := FileHandler.GetGeometries(ws);
          if geometries.Throw? {
            return Throw;
          }
          var labels := GeometryLabels(geometries.value.identifiers);
          return Normal(Some(FilterAndCompletion(labels, currText, currWordRange)));
        } else if t == ParticleText {
          var particles := DefinitionProvider.FetchByFileType(ws, "particles");
          return Normal(Some(FilterAndCompletion(particles.identifiers, currText, currWordRange)));
        } else if t == TextureText {
          return Normal(Some(FilterAndCompletion(textures, currText, currWordRange)));
        }
      }
      if isClientFile || isBehaviourFile {
        if t == AnimationText || t == AnimationControllerText {
          var folder := if t == AnimationText then "animations" else "animation_controllers";
          var response := DefinitionProvider.FetchByFileType(ws, folder);
          return Normal(Some(FilterAndCompletion(response.identifiers, currText, currWordRange)));
        }
      }
    }
    return Normal(None);
  }

  // ---------------------------------------------------------------------------
  // Properties of the dispatch
  // ---------------------------------------------------------------------------

  /**
   * Types other than client entity identifiers, render controllers,
   * geometry, particles, textures, animations and animation controllers are
   * never completed, and the client-only ones only in client files.
   */
  lemma {:induction false} UnhandledTypesGiveNothing(kind: FileKind, t: TextType)
    ensures t in {MaterialText, ComponentGroupText, EventIdentifierText, AnimateText, ServerEntityIdentifierText} ==>
      SourceFor(kind, t) == None
    ensures !kind.isClientFile && t in {ClientEntityIdentifierText, RenderControllerText, GeometryText, ParticleText, TextureText} ==>
      SourceFor(kind, t) == None
    ensures !kind.isClientFile && !kind.isBehaviourFile ==> SourceFor(kind, t) == None
  {
  }

  /**
   * In a client file a client entity identifier completes with the server
   * entity identifiers; animations and animation controllers complete from
   * their folders in either kind of entity file.
   */
  lemma {:induction false} SourceFolders(kind: FileKind)
    ensures kind.isClientFile ==> SourceFor(kind, ClientEntityIdentifierText) == Some(Listed("server_entity"))
    ensures kind.isClientFile || kind.isBehaviourFile ==>
      SourceFor(kind, AnimationText) == Some(Listed("animations")) &&
      SourceFor(kind, AnimationControllerText) == Some(Listed("animation_controllers"))
  {
  }

  /**
   * A completion list is given only in a client or behaviour entity file,
   * with an editor, for pointer text of a completed type; each of its items
   * is an identifier of that type's source starting with the typed word.
   */
  lemma {:induction false} CompletionsOnlyForPointerText(ws: Workspace, hasEditor: bool, pathKeys: Path, wordRange: Option<Range>,
                                      textIn: Range -> string, textures: seq<string>)
    ensures var r := Completions(ws, hasEditor, pathKeys, wordRange, textIn, textures);
      r.Normal? && r.value.Some? ==>
        var kind := CurrentFileType(pathKeys);
        var (parent, key) := ParentAndKey(pathKeys);
        var w := CurrentText(wordRange, textIn);
        hasEditor && (kind.isClientFile || kind.isBehaviourFile) && w.Some? && w.value.text != "" &&
        var t := TextTypeOf(w.value.text, parent, key, pathKeys);
        t.Some? && SourceFor(kind, t.value).Some? &&
        var ids := SourceIdentifiers(ws, SourceFor(kind, t.value).value, textures);
        ids.Normal? &&
        forall i :: 0 <= i < |r.value.value| ==>
          r.value.value[i].text in ids.value && StartsWith(r.value.value[i].text, w.value.text) &&
          r.value.value[i].range == w.value.range
  {
    var r := Completions(ws, hasEditor, pathKeys, wordRange, textIn, textures);
    if r.Normal? && r.value.Some? {
      var (parent, key) := ParentAndKey(pathKeys);
      var w := CurrentText(wordRange, textIn);
      var t := TextTypeOf(w.value.text, parent, key, pathKeys);
      var ids := SourceIdentifiers(ws, SourceFor(CurrentFileType(pathKeys), t.value).value, textures);
      FilterAndCompletionItems(ids.value, w.value.text, w.value.range);
      var items := r.value.value;
      forall i | 0 <= i < |items|
        ensures items[i].text in ids.value && StartsWith(items[i].text, w.value.text) && items[i].range == w.value.range
      {
        assert exists j :: 0 <= j < |items| && items[j].text == items[i].text;
      }
    }
  }
}
