/**
 * The bulk extractors of the older `FileHandler` classes
 * (src/handlers/FileHandler.ts and its earlier copy src/lib/FileHandler.ts).
 * Each one visits the files a glob finds, skips a file that fails to parse,
 * and for every definition it finds pushes a `FileData` onto `files` and its
 * name onto `identifiers`, so the two lists stay index-aligned.
 *
 * The per-file candidates are the same `Entry` sequences the newer resource
 * files fold into a map; here every found entry is pushed in order instead,
 * duplicates included. `nodeToRange` turns the node found at a path into a
 * range. The proximity ordering of the found files is not modelled: the file
 * order is the one `findFiles` gives.
 */
module FileHandler {
  import opened Base
  import opened Json
  import opened Documents
  import opened ResourceFiles

  // ---------------------------------------------------------------------------
  // Pushing definitions
  // ---------------------------------------------------------------------------

  /** `findNodeAtLocation` followed by `nodeToRange` on the document the node belongs to. */
  function RangeOf(document: TextDocument, locate: Locator): RangeAt {
    (p: Path) => if locate(p).Some? then Some(NodeToRange(document, locate(p).value)) else None
  }

  /** The range lookup of a parsed file; a file without a tree finds nothing. */
  function FileRanges(f: ParsedFile): RangeAt {
    if f.node.Some? then RangeOf(f.document, f.node.value) else (p: Path) => None
  }

  /** The definitions pushed for the entries that are found, in order, all with the file's uri. */
  function Listed(uri: Uri, es: seq<Entry>): seq<FileData> {
    if es == [] then []
    else
      var last := es[|es| - 1];
      Listed(uri, es[..|es| - 1]) + (if last.Some? then [FileData(uri, last.value.0, last.value.1)] else [])
  }

  /** A definition is pushed iff it carries the file's uri and some entry found its name and range. */
  lemma {:induction false} ListedMembers(uri: Uri, es: seq<Entry>)
    ensures forall fd :: fd in Listed(uri, es) <==>
      fd.uri == uri && exists i :: 0 <= i < |es| && es[i] == Some((fd.name, fd.range))
    ensures |Listed(uri, es)| <= |es|
  {
    if es != [] {
      var prev := es[..|es| - 1];
      ListedMembers(uri, prev);
      assert forall i :: 0 <= i < |prev| ==> prev[i] == es[i];
      forall fd: FileData | fd.uri == uri && exists i :: 0 <= i < |es| && es[i] == Some((fd.name, fd.range))
        ensures fd in Listed(uri, es)
      {
        var i :| 0 <= i < |es| && es[i] == Some((fd.name, fd.range));
        if i < |prev| {
          assert prev[i] == Some((fd.name, fd.range));
        }
      }
    }
  }

  /**
   * The pushed names are exactly the identifiers the newer extractors keep in
   * their map; the map keeps only the last range of a repeated name, the list
   * keeps them all.
   */
  lemma {:induction false} ListedFold(uri: Uri, es: seq<Entry>)
    ensures forall id :: id in Names(Listed(uri, es)) <==> id in Fold(es)
  {
    ListedMembers(uri, es);
    FoldDomain(es);
    forall id | id in Fold(es)
      ensures id in Names(Listed(uri, es))
    {
      var i :| 0 <= i < |es| && Sets(es[i], id);
      var fd := FileData(uri, id, es[i].value.1);
      assert fd in Listed(uri, es);
      var k :| 0 <= k < |Listed(uri, es)| && Listed(uri, es)[k] == fd;
      assert Names(Listed(uri, es))[k] == id;
    }
    forall id | id in Names(Listed(uri, es))
      ensures id in Fold(es)
    {
      var k :| 0 <= k < |Names(Listed(uri, es))| && Names(Listed(uri, es))[k] == id;
      var fd := Listed(uri, es)[k];
      var i :| 0 <= i < |es| && es[i] == Some((fd.name, fd.range));
      assert Sets(es[i], id);
    }
  }

  /** One more entry pushes its definition and its name, when it has one, after those already pushed. */
  lemma {:induction false} PushStep(uri: Uri, es: seq<Entry>, j: nat, files: seq<FileData>, identifiers: seq<string>)
    requires j < |es|
    ensures es[j].Some? ==>
      files + Listed(uri, es[..j + 1]) == (files + Listed(uri, es[..j])) + [FileData(uri, es[j].value.0, es[j].value.1)] &&
      identifiers + Names(Listed(uri, es[..j + 1])) == (identifiers + Names(Listed(uri, es[..j]))) + [es[j].value.0]
    ensures es[j].None? ==>
      files + Listed(uri, es[..j + 1]) == files + Listed(uri, es[..j]) &&
      identifiers + Names(Listed(uri, es[..j + 1])) == identifiers + Names(Listed(uri, es[..j]))
  {
    var listed := Listed(uri, es[..j]);
    assert Listed(uri, es[..j + 1]) ==
      listed + (if es[j].Some? then [FileData(uri, es[j].value.0, es[j].value.1)] else []) by {
      assert es[..j + 1][..j] == es[..j];
    }
    if es[j].Some? {
      var fd := FileData(uri, es[j].value.0, es[j].value.1);
      assert Names(listed + [fd]) == Names(listed) + [fd.name] by {
        NamesAppend(listed, [fd]);
        assert Names([fd]) == [fd.name];
      }
      ConcatAssoc(files, listed, [fd]);
      ConcatAssoc(identifiers, Names(listed), [fd.name]);
    } else {
      assert listed + [] == listed;
    }
  }

  lemma {:induction false} ConcatAssoc<T>(a: seq<T>, b: seq<T>, c: seq<T>)
    ensures a + (b + c) == (a + b) + c
  {
  }

  /** The inner loop of every extractor: push each found definition and its name. */
  method PushAll(uri: Uri, es: seq<Entry>, files: seq<FileData>, identifiers: seq<string>)
    returns (files': seq<FileData>, identifiers': seq<string>)
    ensures files' == files + Listed(uri, es)
    ensures identifiers' == identifiers + Names(Listed(uri, es))
  {
    files', identifiers' := files, identifiers;
    var j := 0;
    while j < |es|
      invariant 0 <= j <= |es|
      invariant files' == files + Listed(uri, es[..j])
      invariant identifiers' == identifiers + Names(Listed(uri, es[..j]))
    {
      var e := es[j];
      PushStep(uri, es, j, files, identifiers);
      if e.Some? {
        files' := files' + [FileData(uri, e.value.0, e.value.1)];
        identifiers' := identifiers' + [e.value.0];
      }
      j := j + 1;
    }
    assert es[..|es|] == es;
  }

  /** The response of an extractor: the pushed definitions and, aligned with them, their names. */
  function Respond(files: seq<FileData>): (r: FilesSearchResponse)
    ensures Aligned(r)
    ensures r.files == files
  {
    FilesSearchResponse(files, Names(files))
  }

  // ---------------------------------------------------------------------------
  // Scanning the found files
  // ---------------------------------------------------------------------------

  /** One file's definitions: nothing when it failed to parse, otherwise its found entries. */
  function FileList(uri: Uri, f: ParsedFile, entriesOf: ParsedFile -> seq<Entry>): seq<FileData> {
    if Loaded(f) then Listed(uri, entriesOf(f)) else []
  }

  /** The definitions of all files, file after file. */
  function Scanned(uris: seq<Uri>, open: Uri -> ParsedFile, entriesOf: ParsedFile -> seq<Entry>): seq<FileData> {
    if uris == [] then []
    else Scanned(uris[..|uris| - 1], open, entriesOf) + FileList(uris[|uris| - 1], open(uris[|uris| - 1]), entriesOf)
  }

  /**
   * A definition is in the result iff it comes from one of the found files
   * that parsed, carries that file's uri, and some entry of that file found
   * its name and range. A file that fails to parse contributes nothing and
   * does not stop the scan.
   */
  lemma {:induction false} ScannedMembers(uris: seq<Uri>, open: Uri -> ParsedFile, entriesOf: ParsedFile -> seq<Entry>)
    ensures forall fd :: fd in Scanned(uris, open, entriesOf) <==>
      exists i :: 0 <= i < |uris| && fd.uri == uris[i] && Loaded(open(uris[i])) &&
        Some((fd.name, fd.range)) in entriesOf(open(uris[i]))
  {
    if uris != [] {
      var prev := uris[..|uris| - 1];
      var u := uris[|uris| - 1];
      ScannedMembers(prev, open, entriesOf);
      assert forall i :: 0 <= i < |prev| ==> prev[i] == uris[i];
      ListedMembers(u, entriesOf(open(u)));
      forall fd: FileData |
        exists i :: 0 <= i < |uris| && fd.uri == uris[i] && Loaded(open(uris[i])) &&
          Some((fd.name, fd.range)) in entriesOf(open(uris[i]))
        ensures fd in Scanned(uris, open, entriesOf)
      {
        var i :| 0 <= i < |uris| && fd.uri == uris[i] && Loaded(open(uris[i])) &&
                 Some((fd.name, fd.range)) in entriesOf(open(uris[i]));
        if i < |prev| {
          assert prev[i] == uris[i];
        } else {
          var k :| 0 <= k < |entriesOf(open(u))| && entriesOf(open(u))[k] == Some((fd.name, fd.range));
          assert fd in Listed(u, entriesOf(open(u)));
        }
      }
    }
  }

  /** The loop over the found files shared by the extractors that cannot throw. */
  method ScanFiles(uris: seq<Uri>, open: Uri -> ParsedFile, entriesOf: ParsedFile -> seq<Entry>)
    returns (r: FilesSearchResponse)
    ensures r == Respond(Scanned(uris, open, entriesOf))
  {
    var files: seq<FileData> := [];
    var identifiers: seq<string> := [];
    var i := 0;
    while i < |uris|
      invariant 0 <= i <= |uris|
      invariant files == Scanned(uris[..i], open, entriesOf)
      invariant identifiers == Names(files)
    {
      var file := uris[i];
      var f := open(file);
      assert uris[..i + 1][..i] == uris[..i];
      if Loaded(f) {
        NamesAppend(files, Listed(file, entriesOf(f)));
        files, identifiers := PushAll(file, entriesOf(f), files, identifiers);
      }
      i := i + 1;
    }
    assert uris[..|uris|] == uris;
    r := FilesSearchResponse(files, identifiers);
  }

  // ---------------------------------------------------------------------------
  // Geometry (both schemas)
  // ---------------------------------------------------------------------------

  const GeometryGlob := "**/models/**/*.json"

  /**
   * The candidates of one parsed geometry file: the top-level keys below
   * release 12, the elements of the `minecraft:geometry` array from 12 on,
   * none without a release. A `format_version` that is not a string, or a
   * `null` element of the array, throws.
   */
  function GeometryEntries(f: ParsedFile): Completion<seq<Entry>> {
    match Release(f.data)
    case Throw => Throw
    case Normal(release) =>
      if !ReleaseTruthy(release) then Normal([])
      else if release.value < 12 then Normal(LegacyGeometryEntries(Keys(f.data), FileRanges(f)))
      else if SomeNull(GeometryElements(f.data)) then Throw
      else Normal(ArrayGeometryEntries(GeometryElements(f.data), FileRanges(f)))
  }

  /** One geometry file's definitions; a file that fails to parse has none. */
  function GeometryFileList(uri: Uri, f: ParsedFile): Completion<seq<FileData>> {
    if !Loaded(f) then Normal([])
    else
      match GeometryEntries(f)
      case Throw => Throw
      case Normal(es) => Normal(Listed(uri, es))
  }

  /**
   * A geometry file lists exactly the identifiers that the newer geometry
   * extractor keeps for it, and throws exactly when that one throws.
   */
  lemma {:induction false} GeometryFileAgrees(uri: Uri, f: ParsedFile)
    requires Loaded(f)
    ensures GeometryFileList(uri, f).Throw? <==> GeometryData(f.data, FileRanges(f)).Throw?
    ensures GeometryFileList(uri, f).Normal? ==>
      forall id :: id in Names(GeometryFileList(uri, f).value) <==> id in GeometryData(f.data, FileRanges(f)).value
  {
    var rangeAt := FileRanges(f);
    ListedFold(uri, LegacyGeometryEntries(Keys(f.data), rangeAt));
    ListedFold(uri, ArrayGeometryEntries(GeometryElements(f.data), rangeAt));
    ListedFold(uri, []);
  }

  /** The per-file part of `getGeometries`: the schema chosen by the release. */
  method ReadGeometryEntries(f: ParsedFile) returns (r: Completion<seq<Entry>>)
    ensures r == GeometryEntries(f)
  {
    var formatVersion := Get(f.data, "format_version");
    if !Present(formatVersion) {
      return Normal([]);
    }
    if !formatVersion.value.JStr? {
      return Throw;
    }
    var release := VersionRelease(formatVersion.value.s);
    if !ReleaseTruthy(release) {
      return Normal([]);
    }
    if release.value < 12 {
      return Normal(LegacyGeometryEntries(Keys(f.data), FileRanges(f)));
    }
    var documentGeometries := GeometryElements(f.data);
    if SomeNull(documentGeometries) {
      return Throw;
    }
    return Normal(ArrayGeometryEntries(documentGeometries, FileRanges(f)));
  }

  /** Every file's geometry list, as a function of its uri. */
  function GeometryLists(open: Uri -> ParsedFile): Uri -> Completion<seq<FileData>> {
    (u: Uri) => GeometryFileList(u, open(u))
  }

  /** All files' definitions, file after file, or a throw as soon as one file throws. */
  function ScannedOrThrow(uris: seq<Uri>, listOf: Uri -> Completion<seq<FileData>>): Completion<seq<FileData>> {
    if uris == [] then Normal([])
    else
      var prev := ScannedOrThrow(uris[..|uris| - 1], listOf);
      var last := listOf(uris[|uris| - 1]);
      if prev.Throw? || last.Throw? then Throw else Normal(prev.value + last.value)
  }

  /** One more file: the scan so far, then that file's definitions, unless either throws. */
  lemma {:induction false} ScannedStep(uris: seq<Uri>, i: nat, listOf: Uri -> Completion<seq<FileData>>)
    requires i < |uris|
    ensures ScannedOrThrow(uris[..i + 1], listOf) ==
      if ScannedOrThrow(uris[..i], listOf).Throw? || listOf(uris[i]).Throw? then Throw
      else Normal(ScannedOrThrow(uris[..i], listOf).value + listOf(uris[i]).value)
  {
    assert uris[..i + 1][..i] == uris[..i];
  }

  /** The scan throws iff some found file throws. */
  lemma {:induction false} ScannedOrThrowThrows(uris: seq<Uri>, listOf: Uri -> Completion<seq<FileData>>)
    ensures ScannedOrThrow(uris, listOf).Throw? <==> exists i :: 0 <= i < |uris| && listOf(uris[i]).Throw?
  {
    if uris != [] {
      var prev := uris[..|uris| - 1];
      ScannedOrThrowThrows(prev, listOf);
      assert forall i :: 0 <= i < |prev| ==> prev[i] == uris[i];
    }
  }

  /** When the scan does not throw it holds exactly the definitions of every file. */
  lemma {:induction false} ScannedOrThrowMembers(uris: seq<Uri>, listOf: Uri -> Completion<seq<FileData>>, fd: FileData)
    requires ScannedOrThrow(uris, listOf).Normal?
    ensures fd in ScannedOrThrow(uris, listOf).value <==>
      exists i :: 0 <= i < |uris| && listOf(uris[i]).Normal? && fd in listOf(uris[i]).value
  {
    if uris != [] {
      var n := |uris| - 1;
      var prev := uris[..n];
      ScannedOrThrowMembers(prev, listOf, fd);
      assert forall i :: 0 <= i < n ==> prev[i] == uris[i];
      if exists i :: 0 <= i < |uris| && listOf(uris[i]).Normal? && fd in listOf(uris[i]).value {
        var i :| 0 <= i < |uris| && listOf(uris[i]).Normal? && fd in listOf(uris[i]).value;
        if i < n {
          assert prev[i] == uris[i];
        }
      }
    }
  }

  /** `getGeometries`: the loop over the model files, pushing per schema. */
  method GetGeometries(ws: Workspace) returns (r: Completion<FilesSearchResponse>)
    ensures r.Throw? <==> ScannedOrThrow(ws.findFiles(GeometryGlob), GeometryLists(ws.open)).Throw?
    ensures r.Normal? ==> r.value == Respond(ScannedOrThrow(ws.findFiles(GeometryGlob), GeometryLists(ws.open)).value)
  {
    var geometryFiles := ws.findFiles(GeometryGlob);
    ghost var listOf := GeometryLists(ws.open);
    var geometries: seq<FileData> := [];
    var geometryIdentifiers: seq<string> := [];
    var i := 0;
    while i < |geometryFiles|
      invariant 0 <= i <= |geometryFiles|
      invariant ScannedOrThrow(geometryFiles[..i], listOf) == Normal(geometries)
      invariant geometryIdentifiers == Names(geometries)
    {
      var geometryFile := geometryFiles[i];
      var f := ws.open(geometryFile);
      ScannedStep(geometryFiles, i, listOf);
      assert listOf(geometryFile) == GeometryFileList(geometryFile, f);
      if Loaded(f) {
        var es := ReadGeometryEntries(f);
        if es.Throw? {
          ThrowPropagates(geometryFiles, i + 1, listOf);
          return Throw;
        }
        assert GeometryFileList(geometryFile, f) == Normal(Listed(geometryFile, es.value));
        NamesAppend(geometries, Listed(geometryFile, es.value));
        geometries, geometryIdentifiers := PushAll(geometryFile, es.value, geometries, geometryIdentifiers);
      } else {
        assert GeometryFileList(geometryFile, f) == Normal([]);
        assert geometries + [] == geometries;
      }
      i := i + 1;
    }
    assert geometryFiles[..|geometryFiles|] == geometryFiles;
    r := Normal(FilesSearchResponse(geometries, geometryIdentifiers));
  }

  /** Once a prefix of the files throws, the whole scan throws. */
  lemma {:induction false} ThrowPropagates(uris: seq<Uri>, k: nat, listOf: Uri -> Completion<seq<FileData>>)
    requires k <= |uris| && ScannedOrThrow(uris[..k], listOf).Throw?
    ensures ScannedOrThrow(uris, listOf).Throw?
    decreases |uris| - k
  {
    if k < |uris| {
      assert uris[..k + 1][..k] == uris[..k];
      ThrowPropagates(uris, k + 1, listOf);
    } else {
      assert uris[..k] == uris;
    }
  }

  // ---------------------------------------------------------------------------
  // Particles and entities (one description identifier per file)
  // ---------------------------------------------------------------------------

  const ParticleGlob := "**/particles/**/*.json"

  /** A particle file: its `particle_effect.description.identifier`, with the range of `particle_effect`. */
  function ParticleEntries(f: ParsedFile): seq<Entry> {
    [DescriptionEntry("particle_effect", f.data, FileRanges(f))]
  }

  /** `getParticles`. */
  method GetParticles(ws: Workspace) returns (r: FilesSearchResponse)
    ensures r == Respond(Scanned(ws.findFiles(ParticleGlob), ws.open, ParticleEntries))
  {
    r := ScanFiles(ws.findFiles(ParticleGlob), ws.open, ParticleEntries);
  }

  /**
   * Each parsed particle file contributes at most one definition: its
   * identifier with the range of its `particle_effect` node, exactly what the
   * newer description-based extractor keeps.
   */
  lemma {:induction false} ParticleFileAgrees(uri: Uri, f: ParsedFile)
    requires Loaded(f)
    ensures |FileList(uri, f, ParticleEntries)| <= 1
    ensures forall id :: id in Names(FileList(uri, f, ParticleEntries)) <==>
      id in DescriptionBasedData("particle_effect", f.data, FileRanges(f))
  {
    ListedMembers(uri, ParticleEntries(f));
    ListedFold(uri, ParticleEntries(f));
    DescriptionEntryFold("particle_effect", f.data, FileRanges(f));
  }

  /** The root key and the folder searched for each end of an entity. */
  function EntityRoot(type_: FileType): (root: string)
    ensures type_ == ClientEntityIdentifier <==> root == "minecraft:client_entity"
    ensures type_ != ClientEntityIdentifier <==> root == "minecraft:entity"
  {
    if type_ == ClientEntityIdentifier then "minecraft:client_entity" else "minecraft:entity"
  }

  function EntityFolder(type_: FileType): (folder: string)
    ensures type_ == ClientEntityIdentifier <==> folder == "entity"
    ensures type_ != ClientEntityIdentifier <==> folder == "entities"
  {
    if type_ == ClientEntityIdentifier then "entity" else "entities"
  }

  function EntityGlob(folder: string): string {
    "**/" + folder + "/**/*.json"
  }

  /** An entity file: the description identifier under `root`, with the range of the root node. */
  function EntityEntries(root: string): ParsedFile -> seq<Entry> {
    (f: ParsedFile) => [DescriptionEntry(root, f.data, FileRanges(f))]
  }

  /** The scan shared by both generations of `getEntities`, once the root and folder are chosen. */
  method ScanEntities(ws: Workspace, root: string, folder: string) returns (r: FilesSearchResponse)
    ensures r == Respond(Scanned(ws.findFiles(EntityGlob(folder)), ws.open, EntityEntries(root)))
  {
    r := ScanFiles(ws.findFiles(EntityGlob(folder)), ws.open, EntityEntries(root));
  }

  /** `getEntities(type)`: client entities under `entity/`, anything else as server entities under `entities/`. */
  method GetEntities(ws: Workspace, type_: FileType) returns (r: FilesSearchResponse)
    ensures r == Respond(Scanned(ws.findFiles(EntityGlob(EntityFolder(type_))), ws.open, EntityEntries(EntityRoot(type_))))
  {
    r := ScanEntities(ws, EntityRoot(type_), EntityFolder(type_));
  }

  // ---------------------------------------------------------------------------
  // Files whose identifiers are the keys under a root
  // ---------------------------------------------------------------------------

  /** The types `getByFileType` accepts. */
  predicate SimilarFormat(type_: FileType) {
    type_ in {Material, Animation, AnimationController, RenderController, Particle, SoundEffect}
  }

  /** The `rootKeys` table: the root key, which is also the folder searched. */
  function RootKey(type_: FileType): string
    requires SimilarFormat(type_)
  {
    match type_
    case Material => "materials"
    case Animation => "animations"
    case AnimationController => "animation_controllers"
    case RenderController => "render_controllers"
    case Particle => "particles"
    case SoundEffect => "sound_definition"
  }

  /** Only materials are searched with the `.material` extension. */
  function FileExtension(type_: FileType): (ext: string)
    ensures ext == "material" <==> type_ == Material
    ensures ext == "json" <==> type_ != Material
  {
    if type_ == Material then "material" else "json"
  }

  function FolderGlob(folder: string, ext: string): string {
    "**/" + folder + "/**/*." + ext
  }

  /** A file read by root keys: each key of `data[root]` with the range at `[root, key]`. */
  function RootKeyEntries(root: string): ParsedFile -> seq<Entry> {
    (f: ParsedFile) =>
      var scope := Get(f.data, root);
      if Present(scope) then KeyEntries(Some(root), Keys(scope.value), FileRanges(f)) else []
  }

  /** The scan shared by both generations of `getByFileType`, once the root and glob are chosen. */
  method ScanRootKeys(ws: Workspace, root: string, glob: string) returns (r: FilesSearchResponse)
    ensures r == Respond(Scanned(ws.findFiles(glob), ws.open, RootKeyEntries(root)))
  {
    r := ScanFiles(ws.findFiles(glob), ws.open, RootKeyEntries(root));
  }

  /** `getByFileType(type)`: the root key from the table, searched in the folder of that name. */
  method GetByFileType(ws: Workspace, type_: FileType) returns (r: FilesSearchResponse)
    requires SimilarFormat(type_)
    ensures r == Respond(Scanned(ws.findFiles(FolderGlob(RootKey(type_), FileExtension(type_))), ws.open,
                                 RootKeyEntries(RootKey(type_))))
  {
    r := ScanRootKeys(ws, RootKey(type_), FolderGlob(RootKey(type_), FileExtension(type_)));
  }

  /**
   * A parsed file lists exactly the keys the newer key-based extractor keeps
   * for the same root, each once per key.
   */
  lemma {:induction false} RootKeyFileAgrees(uri: Uri, f: ParsedFile, root: string)
    requires Loaded(f)
    ensures forall id :: id in Names(FileList(uri, f, RootKeyEntries(root))) <==>
      id in KeyBasedData(Some(root), f.data, FileRanges(f))
  {
    var scope := Get(f.data, root);
    if Present(scope) {
      ListedFold(uri, KeyEntries(Some(root), Keys(scope.value), FileRanges(f)));
    } else {
      ListedFold(uri, []);
    }
  }

  // ---------------------------------------------------------------------------
  // Animations of one entity document
  // ---------------------------------------------------------------------------

  /** The entity root of a document: the client root when it is truthy, else the server root. */
  function AnimationRoot(data: JSON): (root: Option<string>)
    ensures root.Some? ==> Present(Get(data, root.value))
    ensures Present(Get(data, "minecraft:client_entity")) ==> root == Some("minecraft:client_entity")
    ensures root.None? <==> !Present(Get(data, "minecraft:client_entity")) && !Present(Get(data, "minecraft:entity"))
  {
    if Present(Get(data, "minecraft:client_entity")) then Some("minecraft:client_entity")
    else if Present(Get(data, "minecraft:entity")) then Some("minecraft:entity")
    else None
  }

  /** The `description.animations` object under the entity root, when every step is truthy. */
  function AnimationsObject(data: JSON): Option<(string, JSON)> {
    match AnimationRoot(data)
    case None => None
    case Some(root) =>
      var description := Get(Get(data, root).value, "description");
      if !Present(description) then None
      else
        var animations := Get(description.value, "animations");
        if Present(animations) then Some((root, animations.value)) else None
  }

  function AnimationPath(root: string, name: string): Path {
    [Key(root), Key("description"), Key("animations"), Key(name)]
  }

  function AnimationEntry(root: string, name: string, rangeAt: RangeAt): Entry {
    match rangeAt(AnimationPath(root, name))
    case Some(range) => Some((name, range))
    case None => None
  }

  /** Each key of the animations object, with the range at its path. */
  function AnimationEntries(data: JSON, rangeAt: RangeAt): (es: seq<Entry>)
    ensures AnimationsObject(data).None? ==> es == []
    ensures AnimationsObject(data).Some? ==>
      var names := Keys(AnimationsObject(data).value.1);
      |es| == |names| &&
      forall i :: 0 <= i < |names| ==> es[i] == AnimationEntry(AnimationsObject(data).value.0, names[i], rangeAt)
  {
    match AnimationsObject(data)
    case None => []
    case Some((root, animations)) =>
      var names := Keys(animations);
      seq(|names|, i requires 0 <= i < |names| => AnimationEntry(root, names[i], rangeAt))
  }

  /** What `getAnimations(document)` lists: the parsed document's animations, with the given document's uri. */
  function AnimationList(document: TextDocument, f: ParsedFile): seq<FileData> {
    if Loaded(f) then Listed(document.uri, AnimationEntries(f.data, RangeOf(document, f.node.value))) else []
  }

  /** `getAnimations(document)`: the loop over the animation names of one document. */
  method GetAnimations(ws: Workspace, document: TextDocument) returns (r: FilesSearchResponse)
    ensures r == Respond(AnimationList(document, ws.open(document.uri)))
  {
    var f := ws.open(document.uri);
    var animations: seq<FileData> := [];
    var animationIdentifiers: seq<string> := [];
    if Loaded(f) {
      var es := AnimationEntries(f.data, RangeOf(document, f.node.value));
      animations, animationIdentifiers := PushAll(document.uri, es, animations, animationIdentifiers);
    }
    r := FilesSearchResponse(animations, animationIdentifiers);
  }

  /**
   * Every listed animation is a key of the animations object of the chosen
   * root, with the range at its path; the client root is read when both
   * roots are present.
   */
  lemma {:induction false} AnimationsListed(document: TextDocument, f: ParsedFile, fd: FileData)
    requires Loaded(f)
    ensures fd in AnimationList(document, f) <==>
      AnimationsObject(f.data).Some? && fd.uri == document.uri &&
      fd.name in Keys(AnimationsObject(f.data).value.1) &&
      RangeOf(document, f.node.value)(AnimationPath(AnimationsObject(f.data).value.0, fd.name)) == Some(fd.range)
  {
    var es := AnimationEntries(f.data, RangeOf(document, f.node.value));
    ListedMembers(document.uri, es);
    if AnimationsObject(f.data).Some? {
      var names := Keys(AnimationsObject(f.data).value.1);
      if fd.name in names && fd.uri == document.uri &&
         RangeOf(document, f.node.value)(AnimationPath(AnimationsObject(f.data).value.0, fd.name)) == Some(fd.range) {
        var i :| 0 <= i < |names| && names[i] == fd.name;
        assert es[i] == Some((fd.name, fd.range));
      }
    }
  }

  // ---------------------------------------------------------------------------
  // Textures and sound definitions
  // ---------------------------------------------------------------------------

  function TextureGlob(path: string): string {
    "**/" + path + ".{png,tga}"
  }

  /** `getTexture(path)`: the first file found, named by the path, with an empty range at the start. */
  function GetTexture(ws: Workspace, path: string): (r: Option<FileData>)
    ensures r.None? <==> ws.findFiles(TextureGlob(path)) == []
    ensures r.Some? ==> r.value.uri == ws.findFiles(TextureGlob(path))[0] && r.value.name == path
    ensures r.Some? ==> r.value.range == Range(Position(0, 0), Position(0, 0))
  {
    var textures := ws.findFiles(TextureGlob(path));
    if |textures| > 0 then Some(FileData(textures[0], path, Range(Position(0, 0), Position(0, 0)))) else None
  }

  const SoundDefinitionsGlob := "**/sounds/sound_definitions.json"

  /** Every top-level key of the sound definitions file, with the range at `[key]`. */
  function SoundDefinitionEntries(f: ParsedFile): seq<Entry> {
    KeyEntries(None, Keys(f.data), FileRanges(f))
  }

  /** What `getSoundDefinitions` lists: nothing unless exactly one file is found. */
  function SoundDefinitionList(found: seq<Uri>, open: Uri -> ParsedFile): seq<FileData> {
    if |found| == 1 then FileList(found[0], open(found[0]), SoundDefinitionEntries) else []
  }

  /** `getSoundDefinitions`. */
  method GetSoundDefinitions(ws: Workspace) returns (r: FilesSearchResponse)
    ensures r == Respond(SoundDefinitionList(ws.findFiles(SoundDefinitionsGlob), ws.open))
  {
    var found := ws.findFiles(SoundDefinitionsGlob);
    var definitions: seq<FileData> := [];
    var definitionIdentifiers: seq<string> := [];
    if |found| == 1 {
      var soundDefinitionFile := found[0];
      var f := ws.open(soundDefinitionFile);
      if Loaded(f) {
        definitions, definitionIdentifiers :=
          PushAll(soundDefinitionFile, SoundDefinitionEntries(f), definitions, definitionIdentifiers);
      }
    }
    r := FilesSearchResponse(definitions, definitionIdentifiers);
  }

  /**
   * With exactly one parsed file, the listed names are the top-level keys
   * whose range is found, `format_version` included; with none or several
   * files nothing is listed.
   */
  lemma {:induction false} SoundDefinitionsListed(found: seq<Uri>, open: Uri -> ParsedFile)
    ensures |found| != 1 ==> SoundDefinitionList(found, open) == []
    ensures |found| == 1 && Loaded(open(found[0])) ==>
      forall id :: id in Names(SoundDefinitionList(found, open)) <==>
        id in Keys(open(found[0]).data) && FileRanges(open(found[0]))([Key(id)]).Some?
  {
    if |found| == 1 && Loaded(open(found[0])) {
      var f := open(found[0]);
      ListedFold(found[0], SoundDefinitionEntries(f));
      KeyEntriesFold(None, Keys(f.data), FileRanges(f));
    }
  }

  // ---------------------------------------------------------------------------
  // Behaviour definitions of the current document
  // ---------------------------------------------------------------------------

  /**
   * `getBehaviourDefinitionInCurrentFile`: the same lookup as the newer
   * `getBehaviourDefinitionInFile`, on the reopened current document, with
   * that document's uri and its `nodeToRange`.
   */
  function BehaviourDefinitionInCurrentFile(document: TextDocument, open: Uri -> ParsedFile,
                                            key: BehaviourDefinitionType, definition: string): (r: Option<FileData>)
    ensures r.Some? <==>
      BehaviourDefinitionInFile(open(document.uri), key, definition, (n: Node) => NodeToRange(document, n)).Some?
    ensures r.Some? ==> r.value.uri == document.uri && r.value.name == definition
    ensures r.Some? ==>
      r.value.range == BehaviourDefinitionInFile(open(document.uri), key, definition, (n: Node) => NodeToRange(document, n)).value.range
  {
    var f := open(document.uri);
    var keyName := BehaviourKey(key);
    if !Loaded(f) then None
    else
      var entity := Get(f.data, "minecraft:entity");
      if !Present(entity) then None
      else
        var group := Get(entity.value, keyName);
        if !Present(group) then None
        else if !Present(Get(group.value, definition)) then None
        else
          match f.node.value([Key("minecraft:entity"), Key(keyName), Key(definition)])
          case Some(pointer) => Some(FileData(document.uri, definition, NodeToRange(document, pointer)))
          case None => None
  }
}
