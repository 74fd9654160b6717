/**
 * `BedrockDefinitionProvider` (src/providers/DefinitionProvider.ts): "go to
 * definition" in client and behaviour entity files. The word under the cursor
 * is classified by the shared provider; its type picks a handler, and the
 * handler looks the word up among the definitions the older file handler
 * (src/lib/FileHandler.ts) lists, or in the current document.
 *
 * The cursor's JSON path (`getLocation` of `jsonc-parser`), the word range and
 * the document's text of a range are inputs; the workspace is the value the
 * file handler reads.
 */
module DefinitionProvider {
  import opened Base
  import opened Json
  import opened Documents
  import opened Cursor
  import opened SharedProvider
  import opened ResourceFiles
  import FileHandler
  import LibFileHandler
  import FileSearcher

  // ---------------------------------------------------------------------------
  // Looking up one identifier in a response
  // ---------------------------------------------------------------------------

  /** The definition at the first index of `id` in the identifiers (`indexOf`), if the files reach that far. */
  function FoundAt(response: FilesSearchResponse, id: string): Option<FileData> {
    match FileSearcher.FirstIndex(response.identifiers, id)
    case Some(i) => if i < |response.files| then Some(response.files[i]) else None
    case None => None
  }

  /** The location of a found definition: where the definition is. */
  function LocationOf(fd: Option<FileData>): Option<Location> {
    match fd
    case Some(f) => Some(Location(f.uri, f.range))
    case None => None
  }

  /** For materials, the first identifier starting with `identifier:` replaces the identifier, exact match or not. */
  function MaterialName(identifiers: seq<string>, identifier: string): string {
    match FileSearcher.FirstWithPrefix(identifiers, identifier + ":")
    case Some(k) => identifiers[k]
    case None => identifier
  }

  /** The lookup `byFileType` does once its response is known. */
  function ByFileTypeIn(response: FilesSearchResponse, isMaterials: bool, identifier: string): Option<Location> {
    var id := if isMaterials then MaterialName(response.identifiers, identifier) else identifier;
    LocationOf(FoundAt(response, id))
  }

  /** The lookup `handleGeometry` does once the geometries are known: exact name first, then `name:parent`. */
  function GeometryIn(response: FilesSearchResponse, geometryName: string): Option<Location> {
    LocationOf(FoundAt(response, FileSearcher.Resolved(Geometry, response.identifiers, geometryName)))
  }

  /** The lookup `goToScriptsAnimate` does in the current document's animations: the location is in that document. */
  function ScriptsAnimateIn(response: FilesSearchResponse, uri: Uri, animationName: string): Option<Location> {
    match FoundAt(response, animationName)
    case Some(f) => Some(Location(uri, f.range))
    case None => None
  }

  /** In an aligned response the definition found is that of the first index of the identifier, and only a listed identifier is found. */
  lemma {:induction false} FoundAtFirst(response: FilesSearchResponse, id: string)
    requires Aligned(response)
    ensures FoundAt(response, id).Some? <==> id in response.identifiers
    ensures FoundAt(response, id).Some? ==>
      var i := FileSearcher.FirstIndex(response.identifiers, id).value;
      FoundAt(response, id).value == response.files[i] && response.files[i].name == id &&
      forall j :: 0 <= j < i ==> response.identifiers[j] != id
  {
  }

  /**
   * The material rule: when some identifier starts with `identifier:`, the
   * first such identifier is the one found, even when the identifier itself is
   * listed; only when there is none is the identifier looked up as it is.
   */
  lemma {:induction false} MaterialPrefixFirst(response: FilesSearchResponse, identifier: string)
    requires Aligned(response)
    ensures var k := FileSearcher.FirstWithPrefix(response.identifiers, identifier + ":");
      k.Some? ==> ByFileTypeIn(response, true, identifier) == Some(Location(response.files[k.value].uri, response.files[k.value].range))
    ensures FileSearcher.FirstWithPrefix(response.identifiers, identifier + ":").None? ==>
      ByFileTypeIn(response, true, identifier) == ByFileTypeIn(response, false, identifier)
  {
    var ids := response.identifiers;
    var k := FileSearcher.FirstWithPrefix(ids, identifier + ":");
    if k.Some? {
      var name := ids[k.value];
      assert MaterialName(ids, identifier) == name;
      var i := FileSearcher.FirstIndex(ids, name).value;
      assert i == k.value by {
        if i < k.value {
          assert false;
        }
      }
      assert FoundAt(response, name) == Some(response.files[i]);
    }
  }

  /**
   * The geometry rule: a listed name is found at its first index; a name
   * that is not listed is found as the first `name:parent` identifier; with
   * neither there is nothing.
   */
  lemma {:induction false} GeometryExactThenPrefix(response: FilesSearchResponse, geometryName: string)
    requires Aligned(response)
    ensures geometryName in response.identifiers ==>
      var i := FileSearcher.FirstIndex(response.identifiers, geometryName).value;
      GeometryIn(response, geometryName) == Some(Location(response.files[i].uri, response.files[i].range))
    ensures geometryName !in response.identifiers ==>
      var k := FileSearcher.FirstWithPrefix(response.identifiers, geometryName + ":");
      (k.None? ==> GeometryIn(response, geometryName) == None) &&
      (k.Some? ==> GeometryIn(response, geometryName) == Some(Location(response.files[k.value].uri, response.files[k.value].range)))
  {
    var ids := response.identifiers;
    if geometryName !in ids {
      var k := FileSearcher.FirstWithPrefix(ids, geometryName + ":");
      if k.Some? {
        var name := ids[k.value];
        FoundAtFirst(response, name);
      } else {
        FoundAtFirst(response, geometryName);
      }
    }
  }

  // ---------------------------------------------------------------------------
  // The searches `byFileType` can make
  // ---------------------------------------------------------------------------

  /** The `type` argument `byFileType` accepts: a folder of `getByFileType`, particles, or one end of an entity. */
  predicate ByFileTypeName(t: string) {
    LibFileHandler.ValidPrefix(t) || t in {"particles", "server_entity", "client_entity"}
  }

  /** What `byFileType` reads for each `type`. */
  function FolderResponse(ws: Workspace, t: string): FilesSearchResponse
    requires ByFileTypeName(t)
  {
    if t == "particles" then
      FileHandler.Respond(FileHandler.Scanned(ws.findFiles(FileHandler.ParticleGlob), ws.open, FileHandler.ParticleEntries))
    else if t == "server_entity" || t == "client_entity" then
      var root := LibFileHandler.SideRoot(if t == "client_entity" then "client" else "server");
      FileHandler.Respond(FileHandler.Scanned(ws.findFiles(FileHandler.EntityGlob(LibFileHandler.RootFolder(root))), ws.open,
                                              FileHandler.EntityEntries(root)))
    else
      FileHandler.Respond(FileHandler.Scanned(ws.findFiles(FileHandler.FolderGlob(t, LibFileHandler.PrefixExtension(t))), ws.open,
                                              FileHandler.RootKeyEntries(t)))
  }

  /** The search that opens `byFileType`: the extractor chosen by `type`. */
  method FetchByFileType(ws: Workspace, t: string) returns (response: FilesSearchResponse)
    requires ByFileTypeName(t)
    ensures response == FolderResponse(ws, t)
  {
    if t == "particles" {
      response := FileHandler.GetParticles(ws);
    } else if t == "server_entity" {
      response := LibFileHandler.GetEntities(ws, "server");
    } else if t == "client_entity" {
      response := LibFileHandler.GetEntities(ws, "client");
    } else {
      response := LibFileHandler.GetByFileType(ws, t);
    }
  }

  /** `byFileType(fileHandler, type, identifier)`. */
  method ByFileType(ws: Workspace, t: string, identifier: string) returns (location: Option<Location>)
    requires ByFileTypeName(t)
    ensures location == ByFileTypeIn(FolderResponse(ws, t), t == "materials", identifier)
  {
    var response := FetchByFileType(ws, t);
    var id := identifier;
    if t == "materials" {
      var materialName := FileSearcher.FirstWithPrefix(response.identifiers, id + ":");
      if materialName.Some? {
        id := response.identifiers[materialName.value];
      }
    }
    var identifierIndex := FileSearcher.FirstIndex(response.identifiers, id);
    location := None;
    if identifierIndex.Some? && identifierIndex.value < |response.files| {
      var file := response.files[identifierIndex.value];
      location := Some(Location(file.uri, file.range));
    }
  }

  /** What `getGeometries` gives: the geometries, or a throw when a model file has no geometry list where its version says. */
  function GeometriesResponse(ws: Workspace): Completion<FilesSearchResponse> {
    match FileHandler.ScannedOrThrow(ws.findFiles(FileHandler.GeometryGlob), FileHandler.GeometryLists(ws.open))
    case Normal(files) => Normal(FileHandler.Respond(files))
    case Throw => Throw
  }

  /** `handleGeometry(fileHandler, geometryName)`. */
  method HandleGeometry(ws: Workspace, geometryName: string) returns (r: Completion<Option<Location>>)
    ensures GeometriesResponse(ws).Throw? ==> r == Throw
    ensures GeometriesResponse(ws).Normal? ==> r == Normal(GeometryIn(GeometriesResponse(ws).value, geometryName))
  {
    var geometries := FileHandler.GetGeometries(ws);
    if geometries.Throw? {
      return Throw;
    }
    var files, identifiers := geometries.value.files, geometries.value.identifiers;
    var name := geometryName;
    if name !in identifiers {
      var parentedModel := FileSearcher.FirstWithPrefix(identifiers, name + ":");
      if parentedModel.Some? {
        name := identifiers[parentedModel.value];
      }
    }
    var identifierIndex := FileSearcher.FirstIndex(identifiers, name);
    r := Normal(None);
    if identifierIndex.Some? && identifierIndex.value < |files| {
      var geometry := files[identifierIndex.value];
      r := Normal(Some(Location(geometry.uri, geometry.range)));
    }
  }

  /** `goToBehaviourDefinition(fileHandler, document, key, definition)`: only the current document is searched. */
  function GoToBehaviourDefinition(ws: Workspace, document: TextDocument, key: BehaviourDefinitionType, definition: string)
    : (r: Option<Location>)
    ensures r.Some? ==> r.value.uri == document.uri
    ensures r.Some? <==>
      BehaviourDefinitionInFile(ws.open(document.uri), key, definition, (n: Node) => NodeToRange(document, n)).Some?
  {
    match FileHandler.BehaviourDefinitionInCurrentFile(document, ws.open, key, definition)
    case Some(fd) => Some(Location(fd.uri, fd.range))
    case None => None
  }

  /** What `getAnimations(document)` gives. */
  function AnimationsResponse(ws: Workspace, document: TextDocument): FilesSearchResponse {
    FileHandler.Respond(FileHandler.AnimationList(document, ws.open(document.uri)))
  }

  /** `goToScriptsAnimate(fileHandler, document, animationName)`. */
  method GoToScriptsAnimate(ws: Workspace, document: TextDocument, animationName: string) returns (location: Option<Location>)
    ensures location == ScriptsAnimateIn(AnimationsResponse(ws, document), document.uri, animationName)
  {
    var response := FileHandler.GetAnimations(ws, document);
    var animationIndex := FileSearcher.FirstIndex(response.identifiers, animationName);
    location := None;
    if animationIndex.Some? && animationIndex.value < |response.files| {
      var animation := response.files[animationIndex.value];
      location := Some(Location(document.uri, animation.range));
    }
  }

  // ---------------------------------------------------------------------------
  // The dispatch
  // ---------------------------------------------------------------------------

  /** The handler a classified word is sent to. */
  datatype Handler =
    | ByFile(folder: string)
    | GeometryHandler
    | TextureHandler
    | BehaviourHandler(key: BehaviourDefinitionType)
    | ScriptsAnimateHandler

  /**
   * The handler for a type in a client or behaviour file, `None` when the
   * chain of `if`s has no branch for it. Client files resolve render
   * controllers, geometry, particles, textures, materials and client entity
   * identifiers; behaviour files resolve events, component groups under
   * `events` and server entity identifiers; both resolve `animate` under
   * `scripts`, animations and animation controllers.
   */
  function HandlerFor(kind: FileKind, t: TextType, pathKeys: Path): Option<Handler> {
    if kind.isClientFile && t == RenderControllerText then Some(ByFile("render_controllers"))
    else if kind.isClientFile && t == GeometryText then Some(GeometryHandler)
    else if kind.isClientFile && t == ParticleText then Some(ByFile("particles"))
    else if kind.isClientFile && t == TextureText then Some(TextureHandler)
    else if kind.isClientFile && t == MaterialText then Some(ByFile("materials"))
    else if kind.isClientFile && t == ClientEntityIdentifierText then Some(ByFile("server_entity"))
    else if kind.isBehaviourFile && t == EventIdentifierText then Some(BehaviourHandler(Events))
    else if kind.isBehaviourFile && t == ComponentGroupText && Key("events") in pathKeys then Some(BehaviourHandler(ComponentGroups))
    else if kind.isBehaviourFile && t == ServerEntityIdentifierText then Some(ByFile("client_entity"))
    else if t == AnimateText && Key("scripts") in pathKeys && Key("animate") in pathKeys then Some(ScriptsAnimateHandler)
    else if t == AnimationText then Some(ByFile("animations"))
    else if t == AnimationControllerText then Some(ByFile("animation_controllers"))
    else None
  }

  /** What a handler returns for a word; a texture is the first texture file found, at its start. */
  function Handle(ws: Workspace, document: TextDocument, h: Handler, text: string): Completion<Option<Location>>
    requires h.ByFile? ==> ByFileTypeName(h.folder)
  {
    match h
    case ByFile(folder) => Normal(ByFileTypeIn(FolderResponse(ws, folder), folder == "materials", text))
    case GeometryHandler =>
      (match GeometriesResponse(ws)
       case Normal(response) => Normal(GeometryIn(response, text))
       case Throw => Throw)
    case TextureHandler =>
      (match LibFileHandler.GetTexture(ws, text)
       case Some(texture) => Normal(Some(LocationAt(texture.uri, Position(0, 0))))
       case None => Normal(None))
    case BehaviourHandler(key) => Normal(GoToBehaviourDefinition(ws, document, key, text))
    case ScriptsAnimateHandler => Normal(ScriptsAnimateIn(AnimationsResponse(ws, document), document.uri, text))
  }

  /** Every folder the dispatch hands to `byFileType` is one it accepts. */
  lemma {:induction false} HandlerFolders(kind: FileKind, t: TextType, pathKeys: Path)
    ensures var h := HandlerFor(kind, t, pathKeys); h.Some? && h.value.ByFile? ==> ByFileTypeName(h.value.folder)
  {
  }

  /**
   * `provideDefinition(document, position)`: nothing without an editor,
   * outside client and behaviour entity files, without a non-empty word, or
   * for a word that is not pointer text; otherwise what the handler for its
   * type finds, and nothing when no handler fits. When the lookup fails the
   * result is `undefined`: the location built from the word's own range is
   * discarded.
   */
  function Definition(ws: Workspace, document: TextDocument, hasEditor: bool, pathKeys: Path,
                      wordRange: Option<Range>, textIn: Range -> string): Completion<Option<Location>>
  {
    var kind := CurrentFileType(pathKeys);
    if !hasEditor || (!kind.isClientFile && !kind.isBehaviourFile) then Normal(None)
    else
      var (parent, key) := ParentAndKey(pathKeys);
      var w := CurrentText(wordRange, textIn);
      if w.None? || w.value.text == "" then Normal(None)
      else
        match TextTypeOf(w.value.text, parent, key, pathKeys)
        case None => Normal(None)
        case Some(t) => Resolve(ws, document, kind, t, pathKeys, w.value.text)
  }

  /** What the chain of `if`s gives for a pointer text of type `t`: the handler's result, or nothing. */
  function Resolve(ws: Workspace, document: TextDocument, kind: FileKind, t: TextType, pathKeys: Path, text: string)
    : (r: Completion<Option<Location>>)
    ensures r.Throw? ==> HandlerFor(kind, t, pathKeys) == Some(GeometryHandler) && GeometriesResponse(ws).Throw?
    ensures HandlerFor(kind, t, pathKeys).None? ==> r == Normal(None)
  {
    HandlerFolders(kind, t, pathKeys);
    match HandlerFor(kind, t, pathKeys)
    case None => Normal(None)
    case Some(h) => Handle(ws, document, h, text)
  }

  /** `provideDefinition`, the chain of `if`s as written, reassigning `location`. */
  method ProvideDefinition(ws: Workspace, document: TextDocument, hasEditor: bool, pathKeys: Path,
                           wordRange: Option<Range>, textIn: Range -> string) returns (r: Completion<Option<Location>>)
    ensures r == Definition(ws, document, hasEditor, pathKeys, wordRange, textIn)
  {
    if !hasEditor {
      return Normal(None);
    }
    var kind := CurrentFileType(pathKeys);
    var isClientFile, isBehaviourFile := kind.isClientFile, kind.isBehaviourFile;
    if !isClientFile && !isBehaviourFile {
      return Normal(None);
    }
    var (parent, key) := ParentAndKey(pathKeys);
    var w := CurrentText(wordRange, textIn);
    if w.None? || w.value.text == "" {
      return Normal(None);
    }
    var currText := w.value.text;
    var cls := CurrentTextType(currText, parent, key, pathKeys);
    if !cls.isPointerText {
      return Normal(None);
    }
    r := Dispatch(ws, document, kind, cls.type_.value, pathKeys, currText);
  }

  /** The three blocks of `if`s of `provideDefinition`: client files, behaviour files, both. */
  method Dispatch(ws: Workspace, document: TextDocument, kind: FileKind, t: TextType, pathKeys: Path, currText: string)
    returns (r: Completion<Option<Location>>)
    requires kind.isClientFile || kind.isBehaviourFile
    requires !(kind.isClientFile && kind.isBehaviourFile)
    ensures r == Resolve(ws, document, kind, t, pathKeys, currText)
  {
    var isClientFile, isBehaviourFile := kind.isClientFile, kind.isBehaviourFile;
    ghost var res := Resolve(ws, document, kind, t, pathKeys, currText);
    var location: Option<Location> := None;
    if isClientFile {
      if t == RenderControllerText {
        location := ByFileType(ws, "render_controllers", currText);
        assert Normal(location) == res;
      } else if t == GeometryText {
        var g := HandleGeometry(ws, currText);
        if g.Throw? {
          return Throw;
        }
        location := g.value;
        assert Normal(location) == res;
      } else if t == ParticleText {
        location := ByFileType(ws, "particles", currText);
        assert Normal(location) == res;
      } else if t == TextureText {
        var texture := LibFileHandler.GetTexture(ws, currText);
        if texture.Some? {
          return Normal(Some(LocationAt(texture.value.uri, Position(0, 0))));
        }
      } else if t == MaterialText {
        location := ByFileType(ws, "materials", currText);
        assert Normal(location) == res;
      } else if t == ClientEntityIdentifierText {
        location := ByFileType(ws, "server_entity", currText);
        assert Normal(location) == res;
      }
    }
    if isBehaviourFile {
      if t == EventIdentifierText {
        location := GoToBehaviourDefinition(ws, document, Events, currText);
        assert Normal(location) == res;
      } else if t == ComponentGroupText && Key("events") in pathKeys {
        location := GoToBehaviourDefinition(ws, document, ComponentGroups, currText);
        assert Normal(location) == res;
      } else if t == ServerEntityIdentifierText {
        location := ByFileType(ws, "client_entity", currText);
        assert Normal(location) == res;
      }
    }
    if isClientFile || isBehaviourFile {
      if t == AnimateText && Key("scripts") in pathKeys && Key("animate") in pathKeys {
        location := GoToScriptsAnimate(ws, document, currText);
        assert Normal(location) == res;
      } else if t == AnimationText {
        location := ByFileType(ws, "animations", currText);
        assert Normal(location) == res;
      } else if t == AnimationControllerText {
        location := ByFileType(ws, "animation_controllers", currText);
        assert Normal(location) == res;
      }
    }
    r := Normal(location);
  }

  // ---------------------------------------------------------------------------
  // Properties of the dispatch
  // ---------------------------------------------------------------------------

  /** The classified word of a request that gets as far as the dispatch. */
  function Classified(pathKeys: Path, wordRange: Option<Range>, textIn: Range -> string): Option<(TextType, string)> {
    var (parent, key) := ParentAndKey(pathKeys);
    var w := CurrentText(wordRange, textIn);
    if w.None? || w.value.text == "" then None
    else
      match TextTypeOf(w.value.text, parent, key, pathKeys)
      case None => None
      case Some(t) => Some((t, w.value.text))
  }

  /** Nothing is resolved without an editor, outside client and behaviour entity files, or for a word that is not pointer text. */
  lemma {:induction false} NothingOutsideEntityFiles(ws: Workspace, document: TextDocument, hasEditor: bool, pathKeys: Path,
                                  wordRange: Option<Range>, textIn: Range -> string)
    requires !hasEditor || pathKeys == [] ||
      (pathKeys[0] != Key("minecraft:client_entity") && pathKeys[0] != Key("minecraft:entity")) ||
      Classified(pathKeys, wordRange, textIn).None?
    ensures Definition(ws, document, hasEditor, pathKeys, wordRange, textIn) == Normal(None)
  {
  }

  /**
   * Past the checks the result is what the handler for the word's type
   * finds; a type with no handler in this kind of file gives `undefined`,
   * never a location of the word itself.
   */
  lemma {:induction false} DispatchesToHandler(ws: Workspace, document: TextDocument, pathKeys: Path,
                            wordRange: Option<Range>, textIn: Range -> string)
    requires pathKeys != [] && pathKeys[0] in {Key("minecraft:client_entity"), Key("minecraft:entity")}
    requires Classified(pathKeys, wordRange, textIn).Some?
    ensures var (t, text) := Classified(pathKeys, wordRange, textIn).value;
      var h := HandlerFor(CurrentFileType(pathKeys), t, pathKeys);
      h.Some? ==> h.value.ByFile? ==> ByFileTypeName(h.value.folder)
    ensures var (t, text) := Classified(pathKeys, wordRange, textIn).value;
      var h := HandlerFor(CurrentFileType(pathKeys), t, pathKeys);
      Definition(ws, document, true, pathKeys, wordRange, textIn) ==
        if h.None? then Normal(None) else Handle(ws, document, h.value, text)
  {
    var (t, _) := Classified(pathKeys, wordRange, textIn).value;
    HandlerFolders(CurrentFileType(pathKeys), t, pathKeys);
  }

  /**
   * Entity identifiers resolve to the other end of the entity: in a client
   * file to the server entity, in a behaviour file to the client entity.
   * Other types resolve only in their kind of file.
   */
  lemma {:induction false} ReciprocalEntities(kind: FileKind, t: TextType, pathKeys: Path)
    requires !(kind.isClientFile && kind.isBehaviourFile)
    ensures kind.isClientFile && t == ClientEntityIdentifierText ==> HandlerFor(kind, t, pathKeys) == Some(ByFile("server_entity"))
    ensures kind.isBehaviourFile && t == ServerEntityIdentifierText ==> HandlerFor(kind, t, pathKeys) == Some(ByFile("client_entity"))
    ensures !kind.isClientFile && t in {RenderControllerText, GeometryText, ParticleText, TextureText, MaterialText, ClientEntityIdentifierText} ==>
      HandlerFor(kind, t, pathKeys) == None
    ensures !kind.isBehaviourFile && t in {EventIdentifierText, ComponentGroupText, ServerEntityIdentifierText} ==>
      HandlerFor(kind, t, pathKeys) == None
  {
  }

  /**
   * A component group resolves only when the path goes through `events`, and
   * `animate` only under both `scripts` and `animate`; both look in the
   * current document, as do events.
   */
  lemma {:induction false} PathGatedHandlers(kind: FileKind, pathKeys: Path)
    requires !(kind.isClientFile && kind.isBehaviourFile)
    ensures HandlerFor(kind, ComponentGroupText, pathKeys).Some? <==> kind.isBehaviourFile && Key("events") in pathKeys
    ensures HandlerFor(kind, AnimateText, pathKeys).Some? <==> Key("scripts") in pathKeys && Key("animate") in pathKeys
    ensures kind.isBehaviourFile ==> HandlerFor(kind, EventIdentifierText, pathKeys) == Some(BehaviourHandler(Events))
  {
  }

  /** Events, component groups and `animate` are looked up in the current document only. */
  lemma {:induction false} SameDocumentTargets(ws: Workspace, document: TextDocument, h: Handler, text: string)
    requires h.BehaviourHandler? || h.ScriptsAnimateHandler?
    ensures Handle(ws, document, h, text).Normal?
    ensures Handle(ws, document, h, text).value.Some? ==> Handle(ws, document, h, text).value.value.uri == document.uri
  {
  }
}
