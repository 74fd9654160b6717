/**
 * The first go-to-definition provider (src/DefinitionProvider.ts). It
 * classifies the word under the cursor with two ordered tables (word
 * prefixes, then parent keys, first match wins in each, the parent overriding
 * the prefix) and sends the lowercased word to one handler, which scans the
 * workspace's JSON files and answers with the position of the key that
 * defines the word.
 */
module LegacyDefinitionProvider {
  import opened Base
  import opened Json
  import opened Documents
  import opened Cursor
  import opened SharedProvider
  import JsonPath
  import FileSearcher

  // ---------------------------------------------------------------------------
  // Files as the handlers read them
  // ---------------------------------------------------------------------------

  /** A position as json-source-map reports it: its line and `pos`, the offset from the start of the text. */
  datatype Mark = Mark(line: int, pos: int)

  /** An entry of json-source-map's `pointers` table: where the key ends and where the value starts. */
  datatype Pointer = Pointer(keyEnd: Mark, value: Mark)

  /**
   * A workspace file: `data` is `JSON.parse` of its text with the comments
   * removed (None when that throws), `pointers` maps a JSON pointer such as
   * `/materials/name` to its entry.
   */
  datatype SourceFile = SourceFile(uri: Uri, data: Option<JSON>, pointers: string -> Option<Pointer>)

  /** `findFiles(glob)` and opening a file. */
  datatype LegacyWorkspace = LegacyWorkspace(findFiles: string -> seq<Uri>, open: Uri -> SourceFile)

  /** `new Position(mark.line, mark.pos)`: the offset is used as the column. */
  function MarkPosition(m: Mark): Position {
    Position(m.line, m.pos)
  }

  function OpenAll(ws: LegacyWorkspace, uris: seq<Uri>): (files: seq<SourceFile>)
    ensures |files| == |uris|
    ensures forall i :: 0 <= i < |uris| ==> files[i] == ws.open(uris[i])
  {
    seq(|uris|, i requires 0 <= i < |uris| => ws.open(uris[i]))
  }

  /** `getFilesByFolder(folder)`: the JSON files under every folder of that name. */
  function FilesByFolder(ws: LegacyWorkspace, folder: string): seq<SourceFile> {
    OpenAll(ws, ws.findFiles("**/" + folder + "/**/*.json"))
  }

  /** The files `handleMaterials` reads. */
  function MaterialFiles(ws: LegacyWorkspace): seq<SourceFile> {
    OpenAll(ws, ws.findFiles("**/materials/**/*.material"))
  }

  /** What one iteration of a handler's file loop does. */
  datatype Step = Found(location: Location) | Skip | Fail

  // ---------------------------------------------------------------------------
  // verifyDescriptionIdentifier
  // ---------------------------------------------------------------------------

  /**
   * `verifyDescriptionIdentifier(d, identifier)`: whether
   * `d.description.identifier` is truthy and is `identifier`. Reading a
   * property of `null` throws.
   */
  function VerifyDescriptionIdentifier(d: JSON, identifier: string): (r: Completion<bool>)
    ensures r.Throw? <==> d.JNull?
  {
    match DescriptionIdentifier(d)
    case Throw => Throw
    case Normal(id) => Normal(id == Some(identifier))
  }

  /** The check holds exactly when the description's identifier is that (non-empty) string. */
  lemma {:induction false} VerifyDescriptionIdentifierIff(d: JSON, identifier: string)
    requires !d.JNull?
    ensures VerifyDescriptionIdentifier(d, identifier) == Normal(true) <==>
            identifier != "" && Present(Get(d, "description")) &&
            Get(Get(d, "description").value, "identifier") == Some(JStr(identifier))
  {
    if identifier != "" && Present(Get(d, "description")) &&
       Get(Get(d, "description").value, "identifier") == Some(JStr(identifier)) {
      assert Present(Get(Get(d, "description").value, "identifier"));
    }
  }

  // ---------------------------------------------------------------------------
  // Classification of the word under the cursor
  // ---------------------------------------------------------------------------

  /** The word prefixes, in the order they are tried. */
  const ValidPrefixes: seq<(TextType, string)> := [
    (AnimationControllerText, "controller.animation."),
    (RenderControllerText, "controller."),
    (AnimationText, "animation."),
    (GeometryText, "geometry.")
  ]

  /** The parent keys, in the order they are tried. */
  const ValidParents: seq<(TextType, string)> := [
    (ParticleText, "particle_effects"),
    (TextureText, "textures"),
    (MaterialText, "materials"),
    (ComponentGroupText, "component_groups"),
    (AnimateText, "animate")
  ]

  /** The first row whose prefix starts the text. */
  function FirstPrefixRow(table: seq<(TextType, string)>, text: string): (r: Option<nat>)
    ensures r.None? <==> forall j :: 0 <= j < |table| ==> !StartsWith(text, table[j].1)
    ensures r.Some? ==> r.value < |table| && StartsWith(text, table[r.value].1)
    ensures r.Some? ==> forall j :: 0 <= j < r.value ==> !StartsWith(text, table[j].1)
  {
    if table == [] then None
    else if StartsWith(text, table[0].1) then Some(0)
    else
      match FirstPrefixRow(table[1..], text)
      case None =>
        assert forall j :: 1 <= j < |table| ==> table[j] == table[1..][j - 1];
        None
      case Some(i) => Some(i + 1)
  }

  /** The first row whose key is the parent. */
  function FirstParentRow(table: seq<(TextType, string)>, parent: Option<string>): (r: Option<nat>)
    ensures r.None? <==> forall j :: 0 <= j < |table| ==> parent != Some(table[j].1)
    ensures r.Some? ==> r.value < |table| && parent == Some(table[r.value].1)
    ensures r.Some? ==> forall j :: 0 <= j < r.value ==> parent != Some(table[j].1)
  {
    if table == [] then None
    else if parent == Some(table[0].1) then Some(0)
    else
      match FirstParentRow(table[1..], parent)
      case None =>
        assert forall j :: 1 <= j < |table| ==> table[j] == table[1..][j - 1];
        None
      case Some(i) => Some(i + 1)
  }

  /**
   * The type the three steps leave: the first matching prefix, overridden by
   * the first matching parent, overridden by a key `event`; None when nothing
   * matched (`isPointerText` stays false).
   */
  function WordType(text: string, parent: Option<string>, key: Option<string>): Option<TextType> {
    if key == Some("event") then Some(EventIdentifierText)
    else match FirstParentRow(ValidParents, parent)
      case Some(j) => Some(ValidParents[j].0)
      case None =>
        match FirstPrefixRow(ValidPrefixes, text)
        case Some(j) => Some(ValidPrefixes[j].0)
        case None => None
  }

  /** The two table loops, each leaving at its first match, and the `event` check. */
  method ClassifyWord(text: string, parent: Option<string>, key: Option<string>)
    returns (type_: Option<TextType>, isPointerText: bool)
    ensures isPointerText <==> type_.Some?
    ensures type_ == WordType(text, parent, key)
  {
    type_ := None;
    isPointerText := false;

    var i := 0;
    while i < |ValidPrefixes|
      invariant 0 <= i <= |ValidPrefixes|
      invariant forall j :: 0 <= j < i ==> !StartsWith(text, ValidPrefixes[j].1)
    {
      if StartsWith(text, ValidPrefixes[i].1) {
        type_ := Some(ValidPrefixes[i].0);
        isPointerText := true;
        break;
      }
      i := i + 1;
    }
    ghost var prefixRow := FirstPrefixRow(ValidPrefixes, text);
    assert prefixRow.Some? ==> type_ == Some(ValidPrefixes[prefixRow.value].0);
    assert prefixRow.None? ==> type_.None?;

    var k := 0;
    while k < |ValidParents|
      invariant 0 <= k <= |ValidParents|
      invariant forall j :: 0 <= j < k ==> parent != Some(ValidParents[j].1)
      invariant isPointerText <==> type_.Some?
      invariant prefixRow.Some? ==> type_ == Some(ValidPrefixes[prefixRow.value].0)
      invariant prefixRow.None? ==> type_.None?
    {
      if parent == Some(ValidParents[k].1) {
        type_ := Some(ValidParents[k].0);
        isPointerText := true;
        break;
      }
      k := k + 1;
    }

    if key == Some("event") {
      type_ := Some(EventIdentifierText);
      isPointerText := true;
    }
  }

  /** `controller.animation.` is tried before `controller.`, so an animation controller is never read as a render controller. */
  lemma {:induction false} ControllerAnimationFirst(text: string, parent: Option<string>, key: Option<string>)
    requires StartsWith(text, "controller.animation.")
    requires key != Some("event")
    requires forall j :: 0 <= j < |ValidParents| ==> parent != Some(ValidParents[j].1)
    ensures StartsWith(text, "controller.")
    ensures WordType(text, parent, key) == Some(AnimationControllerText)
  {
    assert text[..|"controller."|] == text[..|"controller.animation."|][..|"controller."|];
    assert FirstPrefixRow(ValidPrefixes, text) == Some(0);
  }

  /** A matching parent decides the type whatever the word is. */
  lemma {:induction false} ParentOverridesPrefix(text: string, j: nat, key: Option<string>)
    requires j < |ValidParents|
    requires key != Some("event")
    ensures WordType(text, Some(ValidParents[j].1), key) == Some(ValidParents[j].0)
  {
    assert FirstParentRow(ValidParents, Some(ValidParents[j].1)) == Some(j);
  }

  /** A key named `event` is an event identifier, whatever the word and the parent. */
  lemma {:induction false} EventUnconditional(text: string, parent: Option<string>)
    ensures WordType(text, parent, Some("event")) == Some(EventIdentifierText)
  {
  }

  /** A word stays unclassified exactly when no rule of the three applies. */
  lemma {:induction false} UnclassifiedIff(text: string, parent: Option<string>, key: Option<string>)
    ensures WordType(text, parent, key).None? <==>
            key != Some("event") &&
            (forall j :: 0 <= j < |ValidParents| ==> parent != Some(ValidParents[j].1)) &&
            (forall j :: 0 <= j < |ValidPrefixes| ==> !StartsWith(text, ValidPrefixes[j].1))
  {
  }

  // ---------------------------------------------------------------------------
  // The request: cursor path and word
  // ---------------------------------------------------------------------------

  /** `path.map(f => f.key)` */
  function PathKeys(path: seq<JsonPath.Frame>): (keys: seq<Option<string>>)
    ensures |keys| == |path|
    ensures forall i :: 0 <= i < |path| ==> keys[i] == path[i].key
  {
    seq(|path|, i requires 0 <= i < |path| => path[i].key)
  }

  /** The parent key: the frame above the cursor's, or the one above that when the first has no key and the path is deep enough. */
  function ParentKey(path: seq<JsonPath.Frame>): Option<string>
    requires |path| >= 2
  {
    var parent := path[|path| - 2].key;
    if parent.None? && |path| > 3 then path[|path| - 3].key else parent
  }

  /**
   * The word with its text lowercased; when that text is quoted, the range
   * loses its quotes and the text is read again and lowercased.
   */
  function LegacyWord(range: Range, textIn: Range -> string): (w: Word)
    ensures forall i :: 0 <= i < |w.text| ==> !('A' <= w.text[i] <= 'Z')
    ensures w.range == range || w.range == Inner(range)
  {
    var text := Lower(textIn(range));
    if Quoted(text) then Word(Lower(textIn(Inner(range))), Inner(range)) else Word(text, range)
  }

  /** Lowercasing does not change whether the word is quoted, so the quotes are removed as they are written. */
  lemma {:induction false} LegacyWordStripsQuotes(range: Range, textIn: Range -> string)
    ensures Quoted(textIn(range)) ==> LegacyWord(range, textIn) == Word(Lower(textIn(Inner(range))), Inner(range))
    ensures !Quoted(textIn(range)) ==> LegacyWord(range, textIn) == Word(Lower(textIn(range)), range)
  {
    var t := textIn(range);
    var l := Lower(t);
    if |t| >= 1 {
      assert l[..1] == [LowerChar(t[0])] && t[..1] == [t[0]];
      assert l[|l| - 1..] == [LowerChar(t[|t| - 1])] && t[|t| - 1..] == [t[|t| - 1]];
    }
    assert StartsWith(l, "\"") <==> StartsWith(t, "\"");
    assert EndsWith(l, "\"") <==> EndsWith(t, "\"");
  }

  /** What reaches the handlers: the file kind, the path keys, the type and the word. */
  datatype LegacyRequest = LegacyRequest(isClientFile: bool, isBehaviourFile: bool,
                                         pathKeys: seq<Option<string>>, type_: TextType, text: string)

  /**
   * `provideDefinition` up to its handlers: no answer without an editor, for a
   * path of fewer than two frames, outside the two entity roots, without a
   * word, or for a word no rule classifies.
   */
  function Classify(hasEditor: bool, path: seq<JsonPath.Frame>, wordRange: Option<Range>,
                    textIn: Range -> string): Option<LegacyRequest>
  {
    if !hasEditor || |path| < 2 then None
    else
      var pathKeys := PathKeys(path);
      var isClientFile := pathKeys[0] == Some("minecraft:client_entity");
      var isBehaviourFile := pathKeys[0] == Some("minecraft:entity");
      if !isClientFile && !isBehaviourFile then None
      else if wordRange.None? then None
      else
        var w := LegacyWord(wordRange.value, textIn);
        match WordType(w.text, ParentKey(path), path[|path| - 1].key)
        case None => None
        case Some(t) => Some(LegacyRequest(isClientFile, isBehaviourFile, pathKeys, t, w.text))
  }

  /** Nothing is looked up for a path of fewer than two frames or outside the entity roots. */
  lemma {:induction false} NothingOutsideEntityRoots(hasEditor: bool, path: seq<JsonPath.Frame>, wordRange: Option<Range>,
                                  textIn: Range -> string)
    requires |path| < 2 || (path[0].key != Some("minecraft:client_entity") && path[0].key != Some("minecraft:entity"))
    ensures Classify(hasEditor, path, wordRange, textIn).None?
  {
  }

  /** A request's word has no capital letter, and its file is exactly one of the two kinds. */
  lemma {:induction false} RequestWordLowercased(hasEditor: bool, path: seq<JsonPath.Frame>, wordRange: Option<Range>,
                              textIn: Range -> string)
    requires Classify(hasEditor, path, wordRange, textIn).Some?
    ensures var req := Classify(hasEditor, path, wordRange, textIn).value;
            (forall i :: 0 <= i < |req.text| ==> !('A' <= req.text[i] <= 'Z')) &&
            req.isClientFile != req.isBehaviourFile &&
            Some(req.type_) == WordType(req.text, ParentKey(path), path[|path| - 1].key)
  {
  }

  /**
   * When the frame above the cursor has no key (an array) and the path is
   * deeper than three frames, the key one frame further up is the parent: a
   * word in an array under `textures` is a texture.
   */
  lemma {:induction false} ParentFallsBackPastArray(hasEditor: bool, path: seq<JsonPath.Frame>, wordRange: Option<Range>,
                                 textIn: Range -> string, j: nat)
    requires hasEditor && |path| > 3 && wordRange.Some?
    requires path[0].key == Some("minecraft:client_entity")
    requires path[|path| - 2].key.None?
    requires j < |ValidParents| && path[|path| - 3].key == Some(ValidParents[j].1)
    requires path[|path| - 1].key != Some("event")
    ensures Classify(hasEditor, path, wordRange, textIn).Some?
    ensures Classify(hasEditor, path, wordRange, textIn).value.type_ == ValidParents[j].0
  {
    ParentOverridesPrefix(LegacyWord(wordRange.value, textIn).text, j, path[|path| - 1].key);
  }

  // ---------------------------------------------------------------------------
  // The handlers
  // ---------------------------------------------------------------------------

  /**
   * One file of `handleKeyType(prefix, name, folder)`: an unparsable file is
   * skipped; reading `data[prefix][name]` throws when `data` is null or has no
   * `prefix` member (or a null one); a truthy `name` member with a pointer
   * gives the end of its key.
   */
  function KeyTypeStep(f: SourceFile, prefix: string, name: string): Step {
    if f.data.None? then Skip
    else if f.data.value.JNull? then Fail
    else
      var root := Get(f.data.value, prefix);
      if root.None? || root.value.JNull? then Fail
      else if !Present(Get(root.value, name)) then Skip
      else
        match f.pointers("/" + prefix + "/" + name)
        case Some(p) => Found(LocationAt(f.uri, MarkPosition(p.keyEnd)))
        case None => Skip
  }

  /** The file loop of `handleKeyType`: the first file that answers, or the first throw. */
  function KeyTypeSearch(files: seq<SourceFile>, prefix: string, name: string): Completion<Option<Location>> {
    if files == [] then Normal(None)
    else
      match KeyTypeStep(files[0], prefix, name)
      case Found(location) => Normal(Some(location))
      case Fail => Throw
      case Skip => KeyTypeSearch(files[1..], prefix, name)
  }

  /**
   * A location comes from a file whose `prefix` member holds a truthy `name`;
   * a throw comes from a parsed file that is null or lacks the `prefix` member.
   */
  lemma {:induction false} KeyTypeSearchSound(files: seq<SourceFile>, prefix: string, name: string)
    ensures var r := KeyTypeSearch(files, prefix, name);
            r.Normal? && r.value.Some? ==>
              exists j :: 0 <= j < |files| && files[j].uri == r.value.value.uri &&
                          files[j].data.Some? && Get(files[j].data.value, prefix).Some? &&
                          Present(Get(Get(files[j].data.value, prefix).value, name))
    ensures KeyTypeSearch(files, prefix, name).Throw? ==>
              exists j :: 0 <= j < |files| && files[j].data.Some? &&
                          (files[j].data.value.JNull? || Get(files[j].data.value, prefix).None? ||
                           Get(files[j].data.value, prefix) == Some(JNull))
  {
    if files != [] && KeyTypeStep(files[0], prefix, name).Skip? {
      KeyTypeSearchSound(files[1..], prefix, name);
      assert forall j :: 1 <= j < |files| ==> files[j] == files[1..][j - 1];
    }
  }

  /**
   * A parsed file without the `prefix` member ends the whole search with a
   * throw, whatever files come after it.
   */
  lemma {:induction false} KeyTypeMissingRootThrows(files: seq<SourceFile>, prefix: string, name: string)
    requires files != [] && files[0].data.Some? && Get(files[0].data.value, prefix).None?
    ensures KeyTypeSearch(files, prefix, name) == Throw
  {
  }

  /** One turn of the `handleKeyType` loop: file `i` decides, or the search goes on at `i + 1`. */
  lemma {:induction false} KeyTypeSearchAt(files: seq<SourceFile>, i: nat, prefix: string, name: string)
    requires i < |files|
    ensures KeyTypeSearch(files[i..], prefix, name) ==
      match KeyTypeStep(files[i], prefix, name)
      case Found(location) => Normal(Some(location))
      case Fail => Throw
      case Skip => KeyTypeSearch(files[i + 1..], prefix, name)
  {
    assert files[i..][0] == files[i] && files[i..][1..] == files[i + 1..];
  }

  /** `handleKeyType(prefix, fullName, folder)`. */
  method HandleKeyType(ws: LegacyWorkspace, prefix: string, fullName: string, folder: string)
    returns (r: Completion<Option<Location>>)
    ensures r == KeyTypeSearch(FilesByFolder(ws, folder), prefix, fullName)
  {
    var files := FilesByFolder(ws, folder);
    var i := 0;
    while i < |files|
      invariant 0 <= i <= |files|
      invariant KeyTypeSearch(files, prefix, fullName) == KeyTypeSearch(files[i..], prefix, fullName)
    {
      var file := files[i];
      KeyTypeSearchAt(files, i, prefix, fullName);
      if file.data.None? {
        i := i + 1;
        continue;
      }
      var data := file.data.value;
      if data.JNull? {
        return Throw;
      }
      var root := Get(data, prefix);
      if root.None? || root.value.JNull? {
        return Throw;
      }
      if Present(Get(root.value, fullName)) {
        var pointer := file.pointers("/" + prefix + "/" + fullName);
        if pointer.Some? {
          return Normal(Some(LocationAt(file.uri, MarkPosition(pointer.value.keyEnd))));
        }
      }
      i := i + 1;
    }
    return Normal(None);
  }

  /**
   * One file of `handleParticles(name)`: a truthy `particle_effect` whose
   * description names the particle, with a pointer, gives the end of that key;
   * a null document throws.
   */
  function ParticleStep(f: SourceFile, name: string): Step {
    if f.data.None? then Skip
    else if f.data.value.JNull? then Fail
    else
      var effect := Get(f.data.value, "particle_effect");
      if !Present(effect) then Skip
      else
        match VerifyDescriptionIdentifier(effect.value, name)
        case Throw => Fail
        case Normal(matches) =>
          if !matches then Skip
          else
            match f.pointers("/particle_effect")
            case Some(p) => Found(LocationAt(f.uri, MarkPosition(p.keyEnd)))
            case None => Skip
  }

  /** The file loop of `handleParticles`. */
  function ParticleSearch(files: seq<SourceFile>, name: string): Completion<Option<Location>> {
    if files == [] then Normal(None)
    else
      match ParticleStep(files[0], name)
      case Found(location) => Normal(Some(location))
      case Fail => Throw
      case Skip => ParticleSearch(files[1..], name)
  }

  /** A location comes from a file whose `particle_effect` names the particle; a throw from a null document. */
  lemma {:induction false} ParticleSearchSound(files: seq<SourceFile>, name: string)
    ensures var r := ParticleSearch(files, name);
            r.Normal? && r.value.Some? ==>
              exists j :: 0 <= j < |files| && files[j].uri == r.value.value.uri && files[j].data.Some? &&
                          Present(Get(files[j].data.value, "particle_effect")) &&
                          VerifyDescriptionIdentifier(Get(files[j].data.value, "particle_effect").value, name) == Normal(true)
    ensures ParticleSearch(files, name).Throw? ==> exists j :: 0 <= j < |files| && files[j].data == Some(JNull)
  {
    if files != [] && ParticleStep(files[0], name).Skip? {
      ParticleSearchSound(files[1..], name);
      assert forall j :: 1 <= j < |files| ==> files[j] == files[1..][j - 1];
    }
  }

  /** One turn of the `handleParticles` loop: file `i` decides, or the search goes on at `i + 1`. */
  lemma {:induction false} ParticleSearchAt(files: seq<SourceFile>, i: nat, name: string)
    requires i < |files|
    ensures ParticleSearch(files[i..], name) ==
      match ParticleStep(files[i], name)
      case Found(location) => Normal(Some(location))
      case Fail => Throw
      case Skip => ParticleSearch(files[i + 1..], name)
  {
    assert files[i..][0] == files[i] && files[i..][1..] == files[i + 1..];
  }

  /** `handleParticles(particleName)`. */
  method HandleParticles(ws: LegacyWorkspace, particleName: string) returns (r: Completion<Option<Location>>)
    ensures r == ParticleSearch(FilesByFolder(ws, "particles"), particleName)
  {
    var particles := FilesByFolder(ws, "particles");
    var i := 0;
    while i < |particles|
      invariant 0 <= i <= |particles|
      invariant ParticleSearch(particles, particleName) == ParticleSearch(particles[i..], particleName)
    {
      var file := particles[i];
      ParticleSearchAt(particles, i, particleName);
      ghost var step := ParticleStep(file, particleName);
      if file.data.None? {
        i := i + 1;
        continue;
      }
      var data := file.data.value;
      if data.JNull? {
        return Throw;
      }
      var effect := Get(data, "particle_effect");
      if Present(effect) {
        var verified := VerifyDescriptionIdentifier(effect.value, particleName);
        if verified == Normal(true) {
          var pointer := file.pointers("/particle_effect");
          if pointer.Some? {
            assert step.Found?;
            return Normal(Some(LocationAt(file.uri, MarkPosition(pointer.value.keyEnd))));
          }
        }
      }
      assert step == Skip;
      i := i + 1;
    }
    return Normal(None);
  }

  /**
   * One file of `handleMaterials(name)`: under a truthy `materials` member,
   * the first key that starts with `name:` is looked up; a key that is just
   * `name` is never one. A null document throws.
   */
  function MaterialStep(f: SourceFile, name: string): Step {
    if f.data.None? then Skip
    else if f.data.value.JNull? then Fail
    else
      var materials := Get(f.data.value, "materials");
      if !Present(materials) then Skip
      else
        var names := Keys(materials.value);
        match FileSearcher.FirstWithPrefix(names, name + ":")
        case None => Skip
        case Some(k) =>
          match f.pointers("/materials/" + names[k])
          case Some(p) => Found(LocationAt(f.uri, MarkPosition(p.keyEnd)))
          case None => Skip
  }

  /** The file loop of `handleMaterials`. */
  function MaterialSearch(files: seq<SourceFile>, name: string): Completion<Option<Location>> {
    if files == [] then Normal(None)
    else
      match MaterialStep(files[0], name)
      case Found(location) => Normal(Some(location))
      case Fail => Throw
      case Skip => MaterialSearch(files[1..], name)
  }

  /**
   * A location comes from a file with a `materials` key that starts with
   * `name:`; a throw from a null document.
   */
  lemma {:induction false} MaterialSearchSound(files: seq<SourceFile>, name: string)
    ensures var r := MaterialSearch(files, name);
            r.Normal? && r.value.Some? ==>
              exists j :: 0 <= j < |files| && files[j].uri == r.value.value.uri && files[j].data.Some? &&
                          Present(Get(files[j].data.value, "materials")) &&
                          exists k :: k in Keys(Get(files[j].data.value, "materials").value) && StartsWith(k, name + ":")
    ensures MaterialSearch(files, name).Throw? ==> exists j :: 0 <= j < |files| && files[j].data == Some(JNull)
  {
    if files == [] {
    } else if MaterialStep(files[0], name).Found? {
      var names := Keys(Get(files[0].data.value, "materials").value);
      var k := FileSearcher.FirstWithPrefix(names, name + ":").value;
      assert names[k] in names && StartsWith(names[k], name + ":");
    } else if MaterialStep(files[0], name).Skip? {
      MaterialSearchSound(files[1..], name);
      assert forall j :: 1 <= j < |files| ==> files[j] == files[1..][j - 1];
    }
  }

  /** Materials match only by prefix: with no `name:` key anywhere, nothing is found, even where `name` itself is a key. */
  lemma {:induction false} MaterialsOnlyByPrefix(files: seq<SourceFile>, name: string)
    requires forall j :: 0 <= j < |files| && files[j].data.Some? && Present(Get(files[j].data.value, "materials")) ==>
               forall k :: k in Keys(Get(files[j].data.value, "materials").value) ==> !StartsWith(k, name + ":")
    ensures MaterialSearch(files, name) == Normal(None) || MaterialSearch(files, name) == Throw
  {
    MaterialSearchSound(files, name);
  }

  /** One turn of the `handleMaterials` loop: the search from `i` is decided by file `i` or goes on at `i + 1`. */
  lemma {:induction false} MaterialSearchAt(files: seq<SourceFile>, i: nat, name: string)
    requires i < |files|
    ensures MaterialSearch(files[i..], name) ==
      match MaterialStep(files[i], name)
      case Found(location) => Normal(Some(location))
      case Fail => Throw
      case Skip => MaterialSearch(files[i + 1..], name)
  {
    assert files[i..][0] == files[i] && files[i..][1..] == files[i + 1..];
  }

  /** The step of a file whose `materials` has a `name:` key with a pointer is that key's location. */
  lemma {:induction false} MaterialStepFound(f: SourceFile, name: string)
    requires f.data.Some? && !f.data.value.JNull? && Present(Get(f.data.value, "materials"))
    requires var names := Keys(Get(f.data.value, "materials").value);
             var k := FileSearcher.FirstWithPrefix(names, name + ":");
             k.Some? && f.pointers("/materials/" + names[k.value]).Some?
    ensures var names := Keys(Get(f.data.value, "materials").value);
            var k := FileSearcher.FirstWithPrefix(names, name + ":");
            MaterialStep(f, name) == Found(LocationAt(f.uri, MarkPosition(f.pointers("/materials/" + names[k.value]).value.keyEnd)))
  {
  }

  /** `handleMaterials(materialName)`. */
  method HandleMaterials(ws: LegacyWorkspace, materialName: string) returns (r: Completion<Option<Location>>)
    ensures r == MaterialSearch(MaterialFiles(ws), materialName)
  {
    var materials := MaterialFiles(ws);
    var i := 0;
    while i < |materials|
      invariant 0 <= i <= |materials|
      invariant MaterialSearch(materials, materialName) == MaterialSearch(materials[i..], materialName)
    {
      var file := materials[i];
      MaterialSearchAt(materials, i, materialName);
      ghost var step := MaterialStep(file, materialName);
      if file.data.None? {
        i := i + 1;
        continue;
      }
      var data := file.data.value;
      if data.JNull? {
        return Throw;
      }
      var materialsMember := Get(data, "materials");
      if Present(materialsMember) {
        var materialNames := Keys(materialsMember.value);
        var key := FileSearcher.FirstWithPrefix(materialNames, materialName + ":");
        if key.Some? {
          var pointer := file.pointers("/materials/" + materialNames[key.value]);
          if pointer.Some? {
            MaterialStepFound(file, materialName);
            return Normal(Some(LocationAt(file.uri, MarkPosition(pointer.value.keyEnd))));
          }
        }
      }
      assert step == Skip;
      i := i + 1;
    }
    return Normal(None);
  }

  // ---------------------------------------------------------------------------
  // handleGeometry
  // ---------------------------------------------------------------------------

  /** One file of `handleGeometry`: found, go on with a (possibly renamed) geometry name, or throw. */
  datatype GeometryStep = GeometryFound(location: Location) | GeometryNext(name: string) | GeometryFail

  /**
   * `format_version` read without a guard: anything but a string (or no
   * member at all, or a null document) throws at `.split`; a string gives the
   * number between its first two dots.
   */
  function FormatRelease(data: JSON): (r: Completion<Option<nat>>)
    ensures r.Normal? <==> Get(data, "format_version").Some? && Get(data, "format_version").value.JStr?
  {
    match Get(data, "format_version")
    case Some(JStr(version)) => Normal(VersionRelease(version))
    case _ => Throw
  }

  /**
   * The 1.8.0 schema's name: the name itself when it is a truthy member,
   * otherwise the first key that starts with `name:` (a parented model),
   * otherwise the name unchanged.
   */
  function FlatGeometryName(data: JSON, name: string): (r: string)
    ensures r == name || (StartsWith(r, name + ":") && r in Keys(data))
  {
    if Present(Get(data, name)) then name
    else
      var keys := Keys(data);
      match FileSearcher.FirstWithPrefix(keys, name + ":")
      case Some(k) => keys[k]
      case None => name
  }

  /** The exact key wins; without it, the first `name:` key in key order; without either, the name stays. */
  lemma {:induction false} FlatGeometryExactThenPrefix(data: JSON, name: string)
    ensures Present(Get(data, name)) ==> FlatGeometryName(data, name) == name
    ensures !Present(Get(data, name)) && FileSearcher.FirstWithPrefix(Keys(data), name + ":").Some? ==>
              var k := FileSearcher.FirstWithPrefix(Keys(data), name + ":").value;
              FlatGeometryName(data, name) == Keys(data)[k] &&
              forall i :: 0 <= i < k ==> !StartsWith(Keys(data)[i], name + ":")
    ensures (forall i :: 0 <= i < |Keys(data)| ==> !StartsWith(Keys(data)[i], name + ":")) ==>
              FlatGeometryName(data, name) == name
  {
  }

  /**
   * The inner loop of the 1.12.0 schema from index `i`: the first element
   * whose description names the geometry and that has a pointer; a null
   * element throws.
   */
  function GeometryArrayStep(f: SourceFile, geometries: seq<JSON>, name: string, i: nat): (r: GeometryStep)
    decreases |geometries| - i
    ensures r.GeometryNext? ==> r.name == name
    ensures r.GeometryFound? ==>
              exists j :: i <= j < |geometries| &&
                          VerifyDescriptionIdentifier(geometries[j], name) == Normal(true) &&
                          f.pointers("/minecraft:geometry/" + NatToString(j)).Some? &&
                          r.location == LocationAt(f.uri, MarkPosition(f.pointers("/minecraft:geometry/" + NatToString(j)).value.value))
  {
    if i >= |geometries| then GeometryNext(name)
    else
      match VerifyDescriptionIdentifier(geometries[i], name)
      case Throw => GeometryFail
      case Normal(matches) =>
        if matches && f.pointers("/minecraft:geometry/" + NatToString(i)).Some? then
          GeometryFound(LocationAt(f.uri, MarkPosition(f.pointers("/minecraft:geometry/" + NatToString(i)).value.value)))
        else GeometryArrayStep(f, geometries, name, i + 1)
  }

  /** The `minecraft:geometry` array when it is truthy and not empty. */
  function GeometryArray(data: JSON): Option<seq<JSON>> {
    var geometries := Get(data, "minecraft:geometry");
    if Present(geometries) && Length(geometries.value).Some? && Length(geometries.value).value > 0
    then Some(Elements(geometries.value))
    else None
  }

  /**
   * One file of `handleGeometry`: an unparsable file or one whose release is
   * 0 or unreadable is passed over; a release below 12 selects the flat 1.8.0
   * keys, any other the `minecraft:geometry` array.
   */
  function GeometryFileStep(f: SourceFile, name: string): (r: GeometryStep)
    ensures r.GeometryNext? ==> r.name == name || StartsWith(r.name, name + ":")
    ensures r.GeometryFound? ==> r.location.uri == f.uri
  {
    if f.data.None? then GeometryNext(name)
    else
      var data := f.data.value;
      match FormatRelease(data)
      case Throw => GeometryFail
      case Normal(release) =>
        if !ReleaseTruthy(release) then GeometryNext(name)
        else if release.value < 12 then
          var flatName := FlatGeometryName(data, name);
          if Present(Get(data, flatName)) && f.pointers("/" + flatName).Some? then
            GeometryFound(LocationAt(f.uri, MarkPosition(f.pointers("/" + flatName).value.keyEnd)))
          else GeometryNext(flatName)
        else
          match GeometryArray(data)
          case None => GeometryNext(name)
          case Some(geometries) => GeometryArrayStep(f, geometries, name, 0)
  }

  /** The file loop of `handleGeometry`, the name a file renames carried on to the next files. */
  function GeometrySearch(files: seq<SourceFile>, name: string): Completion<Option<Location>> {
    if files == [] then Normal(None)
    else
      match GeometryFileStep(files[0], name)
      case GeometryFound(location) => Normal(Some(location))
      case GeometryFail => Throw
      case GeometryNext(next) => GeometrySearch(files[1..], next)
  }

  /** A location found is in one of the model files. */
  lemma {:induction false} GeometrySearchInFiles(files: seq<SourceFile>, name: string)
    ensures var r := GeometrySearch(files, name);
            r.Normal? && r.value.Some? ==> exists j :: 0 <= j < |files| && files[j].uri == r.value.value.uri
  {
    if files != [] && GeometryFileStep(files[0], name).GeometryNext? {
      GeometrySearchInFiles(files[1..], GeometryFileStep(files[0], name).name);
      assert forall j :: 1 <= j < |files| ==> files[j] == files[1..][j - 1];
    }
  }

  /** A name renamed from one that extends the original by `:` extends the original too. */
  lemma {:induction false} NameExtends(next: string, current: string, name: string)
    requires current == name || StartsWith(current, name + ":")
    requires next == current || StartsWith(next, current + ":")
    ensures next == name || StartsWith(next, name + ":")
  {
    if next != current && current != name {
      assert next[..|current|] == next[..|current + ":"|][..|current|];
      assert next[..|name + ":"|] == next[..|current|][..|name + ":"|];
    } else if next != current {
      assert next[..|name + ":"|] == next[..|current + ":"|];
    }
  }

  /**
   * The 1.12.0 array loop: the first element that names the geometry and
   * has a pointer. Reading the description of a null element throws.
   */
  method FindInGeometryArray(file: SourceFile, geometries: seq<JSON>, geometryName: string)
    returns (step: GeometryStep)
    ensures step == GeometryArrayStep(file, geometries, geometryName, 0)
  {
    var i := 0;
    while i < |geometries|
      invariant 0 <= i <= |geometries|
      invariant GeometryArrayStep(file, geometries, geometryName, 0) == GeometryArrayStep(file, geometries, geometryName, i)
    {
      var verified := VerifyDescriptionIdentifier(geometries[i], geometryName);
      if verified.Throw? {
        return GeometryFail;
      }
      if verified.value {
        var pointer := file.pointers("/minecraft:geometry/" + NatToString(i));
        if pointer.Some? {
          return GeometryFound(LocationAt(file.uri, MarkPosition(pointer.value.value)));
        }
      }
      i := i + 1;
    }
    return GeometryNext(geometryName);
  }

  /** One turn of the `handleGeometry` loop: file `i` decides, or the search goes on at `i + 1` with the name it leaves. */
  lemma {:induction false} GeometrySearchAt(files: seq<SourceFile>, i: nat, name: string)
    requires i < |files|
    ensures GeometrySearch(files[i..], name) ==
      match GeometryFileStep(files[i], name)
      case GeometryFound(location) => Normal(Some(location))
      case GeometryFail => Throw
      case GeometryNext(next) => GeometrySearch(files[i + 1..], next)
  {
    assert files[i..][0] == files[i] && files[i..][1..] == files[i + 1..];
  }

  /**
   * `handleGeometry(geometryName)`. The name is a variable of the loop: a
   * 1.8.0 file that renames it to a parented key leaves that key for every
   * later file, so the name searched is always the original or extends it by
   * `:` and more.
   */
  method HandleGeometry(ws: LegacyWorkspace, name: string) returns (r: Completion<Option<Location>>)
    ensures r == GeometrySearch(FilesByFolder(ws, "models"), name)
  {
    var models := FilesByFolder(ws, "models");
    var geometryName := name;
    var i := 0;
    while i < |models|
      invariant 0 <= i <= |models|
      invariant geometryName == name || StartsWith(geometryName, name + ":")
      invariant GeometrySearch(models, name) == GeometrySearch(models[i..], geometryName)
    {
      var file := models[i];
      GeometrySearchAt(models, i, geometryName);
      ghost var before := geometryName;
      ghost var expected := GeometryFileStep(file, geometryName);
      if file.data.None? {
        i := i + 1;
        continue;
      }
      var data := file.data.value;
      var release := FormatRelease(data);
      if release.Throw? {
        return Throw;
      }
      if ReleaseTruthy(release.value) {
        if release.value.value < 12 {
          geometryName := FlatGeometryName(data, geometryName);
          if Present(Get(data, geometryName)) {
            var pointer := file.pointers("/" + geometryName);
            if pointer.Some? {
              return Normal(Some(LocationAt(file.uri, MarkPosition(pointer.value.keyEnd))));
            }
          }
        } else {
          var geometries := GeometryArray(data);
          if geometries.Some? {
            var step := FindInGeometryArray(file, geometries.value, geometryName);
            if step.GeometryFail? {
              return Throw;
            }
            if step.GeometryFound? {
              return Normal(Some(step.location));
            }
          }
        }
      }
      assert expected == GeometryNext(geometryName);
      NameExtends(geometryName, before, name);
      i := i + 1;
    }
    return Normal(None);
  }

  // ---------------------------------------------------------------------------
  // Handlers on the current document and on texture files
  // ---------------------------------------------------------------------------

  /**
   * `goToBehaviourDefinition(document, key, definition)`: the current document
   * is parsed without a guard, so an unparsable or null document throws; a
   * truthy `minecraft:entity.key.definition` gives the end of its key, and a
   * missing pointer for it throws.
   */
  function BehaviourDefinition(current: SourceFile, uri: Uri, key: string, definition: string): (r: Completion<Option<Location>>)
    ensures current.data.None? || current.data.value.JNull? ==> r == Throw
    ensures r.Normal? && r.value.Some? ==> r.value.value.uri == uri
    ensures r.Throw? && current.data.Some? && !current.data.value.JNull? ==>
      current.pointers("/minecraft:entity/" + key + "/" + definition).None?
  {
    if current.data.None? || current.data.value.JNull? then Throw
    else
      var entity := Get(current.data.value, "minecraft:entity");
      if !Present(entity) then Normal(None)
      else
        var section := Get(entity.value, key);
        if !Present(section) || !Present(Get(section.value, definition)) then Normal(None)
        else
          match current.pointers("/minecraft:entity/" + key + "/" + definition)
          case None => Throw
          case Some(p) => Normal(Some(LocationAt(uri, MarkPosition(p.keyEnd))))
  }

  /** The answer is in the current document, and only for a definition present under the entity's `key` section. */
  lemma {:induction false} BehaviourDefinitionInSection(current: SourceFile, uri: Uri, key: string, definition: string)
    ensures var r := BehaviourDefinition(current, uri, key, definition);
            r.Normal? && r.value.Some? ==>
              r.value.value.uri == uri && current.data.Some? &&
              Present(Get(current.data.value, "minecraft:entity")) &&
              Present(Get(Get(current.data.value, "minecraft:entity").value, key)) &&
              Present(Get(Get(Get(current.data.value, "minecraft:entity").value, key).value, definition))
  {
  }

  /** The root `goToScriptsAnimate` reads: the client entity when truthy, else the behaviour entity when truthy. */
  function AnimateRoot(data: JSON): (r: Option<string>)
    ensures r.Some? ==> Present(Get(data, r.value))
    ensures r.None? <==> !Present(Get(data, "minecraft:client_entity")) && !Present(Get(data, "minecraft:entity"))
  {
    if Present(Get(data, "minecraft:client_entity")) then Some("minecraft:client_entity")
    else if Present(Get(data, "minecraft:entity")) then Some("minecraft:entity")
    else None
  }

  /**
   * `goToScriptsAnimate(document, definition)`: a truthy
   * `root.description.animations.definition` gives the end of its key.
   */
  function ScriptsAnimate(current: SourceFile, uri: Uri, definition: string): (r: Completion<Option<Location>>)
    ensures current.data.None? || current.data.value.JNull? ==> r == Throw
    ensures r.Normal? && r.value.Some? ==> r.value.value.uri == uri
    ensures r.Throw? && current.data.Some? && !current.data.value.JNull? ==>
      AnimateRoot(current.data.value).Some? &&
      current.pointers("/" + AnimateRoot(current.data.value).value + "/description/animations/" + definition).None?
  {
    if current.data.None? || current.data.value.JNull? then Throw
    else
      var data := current.data.value;
      match AnimateRoot(data)
      case None => Normal(None)
      case Some(root) =>
        var description := Get(Get(data, root).value, "description");
        if !Present(description) then Normal(None)
        else
          var animations := Get(description.value, "animations");
          if !Present(animations) || !Present(Get(animations.value, definition)) then Normal(None)
          else
            match current.pointers("/" + root + "/description/animations/" + definition)
            case None => Throw
            case Some(p) => Normal(Some(LocationAt(uri, MarkPosition(p.keyEnd))))
  }

  /** A client entity's animations are looked up under it, even when the document also has a behaviour root. */
  lemma {:induction false} ScriptsAnimatePrefersClient(current: SourceFile, uri: Uri, definition: string)
    requires current.data.Some? && Present(Get(current.data.value, "minecraft:client_entity"))
    ensures var r := ScriptsAnimate(current, uri, definition);
            r.Normal? && r.value.Some? ==>
              var description := Get(Get(current.data.value, "minecraft:client_entity").value, "description");
              Present(description) && Present(Get(description.value, "animations")) &&
              Present(Get(Get(description.value, "animations").value, definition))
  {
  }

  /** `handleTextures(path)`: the start of the first `path.png` the workspace lists. */
  function TextureLocation(ws: LegacyWorkspace, path: string): (r: Option<Location>)
    ensures r.Some? <==> ws.findFiles("**/" + path + ".png") != []
    ensures r.Some? ==> r.value == LocationAt(ws.findFiles("**/" + path + ".png")[0], Position(0, 0))
  {
    var textures := ws.findFiles("**/" + path + ".png");
    if |textures| > 0 then Some(LocationAt(textures[0], Position(0, 0))) else None
  }

  // ---------------------------------------------------------------------------
  // provideDefinition
  // ---------------------------------------------------------------------------

  /** The handler call the three blocks of `provideDefinition` make. */
  datatype Call =
    | KeyTypeCall(prefix: string, folder: string)
    | GeometryCall
    | ParticleCall
    | TextureCall
    | MaterialCall
    | BehaviourCall(key: string)
    | ScriptsAnimateCall

  /** The client-file block. */
  function ClientCall(t: TextType): Option<Call> {
    if t == RenderControllerText then Some(KeyTypeCall("render_controllers", "render_controllers"))
    else if t == GeometryText then Some(GeometryCall)
    else if t == ParticleText then Some(ParticleCall)
    else if t == TextureText then Some(TextureCall)
    else if t == MaterialText then Some(MaterialCall)
    else None
  }

  /** The behaviour-file block: component groups only inside `events`. */
  function BehaviourFileCall(t: TextType, pathKeys: seq<Option<string>>): Option<Call> {
    if t == EventIdentifierText then Some(BehaviourCall("events"))
    else if t == ComponentGroupText && Some("events") in pathKeys then Some(BehaviourCall("component_groups"))
    else None
  }

  /** The block for both kinds: `animate` only inside `scripts` and `animate`. */
  function SharedCall(t: TextType, pathKeys: seq<Option<string>>): Option<Call> {
    if t == AnimateText && Some("scripts") in pathKeys && Some("animate") in pathKeys then Some(ScriptsAnimateCall)
    else if t == AnimationText then Some(KeyTypeCall("animations", "animations"))
    else if t == AnimationControllerText then Some(KeyTypeCall("animation_controllers", "animation_controllers"))
    else None
  }

  /**
   * The call the request leads to. The blocks run in order and a later one
   * would overwrite the location of an earlier one, but their types are
   * disjoint, so at most one of them calls a handler.
   */
  function CallFor(req: LegacyRequest): Option<Call> {
    if req.isClientFile && ClientCall(req.type_).Some? then ClientCall(req.type_)
    else if req.isBehaviourFile && BehaviourFileCall(req.type_, req.pathKeys).Some? then BehaviourFileCall(req.type_, req.pathKeys)
    else if (req.isClientFile || req.isBehaviourFile) && SharedCall(req.type_, req.pathKeys).Some? then SharedCall(req.type_, req.pathKeys)
    else None
  }

  /** No type is handled by two blocks. */
  lemma {:induction false} BlocksDisjoint(t: TextType, pathKeys: seq<Option<string>>)
    ensures ClientCall(t).Some? ==> BehaviourFileCall(t, pathKeys).None? && SharedCall(t, pathKeys).None?
    ensures BehaviourFileCall(t, pathKeys).Some? ==> SharedCall(t, pathKeys).None?
  {
  }

  /**
   * Files of one kind never reach the other kind's handlers: the model,
   * particle, texture, material and render-controller lookups serve client
   * files, the event and component-group lookups behaviour files; component
   * groups and animate entries need their enclosing keys.
   */
  lemma {:induction false} CallsMatchFileKind(req: LegacyRequest)
    requires req.isClientFile != req.isBehaviourFile
    ensures (CallFor(req) in {Some(GeometryCall), Some(ParticleCall), Some(TextureCall), Some(MaterialCall),
                               Some(KeyTypeCall("render_controllers", "render_controllers"))}) ==> req.isClientFile
    ensures CallFor(req).Some? && CallFor(req).value.BehaviourCall? ==> req.isBehaviourFile
    ensures CallFor(req) == Some(BehaviourCall("component_groups")) ==> Some("events") in req.pathKeys
    ensures CallFor(req) == Some(ScriptsAnimateCall) ==>
              Some("scripts") in req.pathKeys && Some("animate") in req.pathKeys && req.type_ == AnimateText
    ensures req.type_ == AnimationText ==> CallFor(req) == Some(KeyTypeCall("animations", "animations"))
  {
  }

  /** What a call answers. */
  function Perform(ws: LegacyWorkspace, uri: Uri, call: Call, text: string): Completion<Option<Location>> {
    match call
    case KeyTypeCall(prefix, folder) => KeyTypeSearch(FilesByFolder(ws, folder), prefix, text)
    case GeometryCall => GeometrySearch(FilesByFolder(ws, "models"), text)
    case ParticleCall => ParticleSearch(FilesByFolder(ws, "particles"), text)
    case TextureCall => Normal(TextureLocation(ws, text))
    case MaterialCall => MaterialSearch(MaterialFiles(ws), text)
    case BehaviourCall(key) => BehaviourDefinition(ws.open(uri), uri, key, text)
    case ScriptsAnimateCall => ScriptsAnimate(ws.open(uri), uri, text)
  }

  /**
   * `provideDefinition`: the handler's answer for a classified word, and
   * nothing otherwise. When the handler finds nothing, the answer stays
   * undefined (the fallback location is built and dropped).
   */
  function Definition(ws: LegacyWorkspace, uri: Uri, hasEditor: bool, path: seq<JsonPath.Frame>,
                      wordRange: Option<Range>, textIn: Range -> string): Completion<Option<Location>> {
    match Classify(hasEditor, path, wordRange, textIn)
    case None => Normal(None)
    case Some(req) =>
      match CallFor(req)
      case None => Normal(None)
      case Some(call) => Perform(ws, uri, call, req.text)
  }

  /** The three blocks of `provideDefinition`, each handler returning at once when it throws. */
  method Dispatch(ws: LegacyWorkspace, uri: Uri, req: LegacyRequest) returns (r: Completion<Option<Location>>)
    ensures CallFor(req).None? ==> r == Normal(None)
    ensures CallFor(req).Some? ==> r == Perform(ws, uri, CallFor(req).value, req.text)
  {
    BlocksDisjoint(req.type_, req.pathKeys);
    ghost var call := CallFor(req);
    var type_ := req.type_;
    var currText := req.text;
    var location: Completion<Option<Location>> := Normal(None);

    if req.isClientFile {
      if type_ == RenderControllerText {
        assert call == Some(KeyTypeCall("render_controllers", "render_controllers"));
        location := HandleKeyType(ws, "render_controllers", currText, "render_controllers");
      } else if type_ == GeometryText {
        assert call == Some(GeometryCall);
        location := HandleGeometry(ws, currText);
      } else if type_ == ParticleText {
        assert call == Some(ParticleCall);
        location := HandleParticles(ws, currText);
      } else if type_ == TextureText {
        assert call == Some(TextureCall);
        location := Normal(TextureLocation(ws, currText));
      } else if type_ == MaterialText {
        assert call == Some(MaterialCall);
        location := HandleMaterials(ws, currText);
      }
      if location.Throw? {
        return Throw;
      }
    }

    if req.isBehaviourFile {
      if type_ == EventIdentifierText {
        assert call == Some(BehaviourCall("events"));
        location := BehaviourDefinition(ws.open(uri), uri, "events", currText);
      } else if type_ == ComponentGroupText && Some("events") in req.pathKeys {
        assert call == Some(BehaviourCall("component_groups"));
        location := BehaviourDefinition(ws.open(uri), uri, "component_groups", currText);
      }
      if location.Throw? {
        return Throw;
      }
    }

    if req.isClientFile || req.isBehaviourFile {
      if type_ == AnimateText && Some("scripts") in req.pathKeys && Some("animate") in req.pathKeys {
        assert call == Some(ScriptsAnimateCall);
        location := ScriptsAnimate(ws.open(uri), uri, currText);
      } else if type_ == AnimationText {
        assert call == Some(KeyTypeCall("animations", "animations"));
        location := HandleKeyType(ws, "animations", currText, "animations");
      } else if type_ == AnimationControllerText {
        assert call == Some(KeyTypeCall("animation_controllers", "animation_controllers"));
        location := HandleKeyType(ws, "animation_controllers", currText, "animation_controllers");
      }
    }
    return location;
  }

  /** The provider, which keeps the document of the last request. */
  class DefinitionProvider {
    var document: Option<TextDocument>

    constructor()
      ensures document == None
    {
      document := None;
    }

    /**
     * `provideDefinition(document, position)`: `offset` is the cursor's offset
     * in `documentText`, `wordRange` the word range at the cursor, `textIn`
     * the document's `getText(range)`.
     */
    method ProvideDefinition(ws: LegacyWorkspace, doc: TextDocument, documentText: string, offset: int,
                             hasEditor: bool, wordRange: Option<Range>, textIn: Range -> string)
      returns (r: Completion<Option<Location>>)
      modifies this
      ensures document == Some(doc)
      ensures r == Definition(ws, doc.uri, hasEditor, JsonPath.PathTo(documentText, offset), wordRange, textIn)
    {
      document := Some(doc);
      if !hasEditor {
        return Normal(None);
      }
      var path := JsonPath.JsonPathTo(documentText, offset);
      var pathKeys := PathKeys(path);
      if |path| < 2 {
        return Normal(None);
      }
      var isClientFile := pathKeys[0] == Some("minecraft:client_entity");
      var isBehaviourFile := pathKeys[0] == Some("minecraft:entity");
      if !isClientFile && !isBehaviourFile {
        return Normal(None);
      }
      var parent := path[|path| - 2].key;
      if parent.None? && |path| > 3 {
        parent := path[|path| - 3].key;
      }
      var key := path[|path| - 1].key;
      if wordRange.None? {
        return Normal(None);
      }
      var word := LegacyWord(wordRange.value, textIn);
      var type_, isPointerText := ClassifyWord(word.text, parent, key);
      if !isPointerText {
        return Normal(None);
      }
      var req := LegacyRequest(isClientFile, isBehaviourFile, pathKeys, type_.value, word.text);
      assert Classify(hasEditor, path, wordRange, textIn) == Some(req);
      r := Dispatch(ws, doc.uri, req);
    }
  }
}
