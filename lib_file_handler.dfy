/**
 * The older generation of the bulk extractors (`src/lib/FileHandler.ts`).
 * Geometries, particles, animations and `nodeToRange` are line for line the
 * same as in the newer handler and are modelled once there; what differs is
 * how `getByFileType` and `getEntities` are addressed (by folder string and by
 * side string instead of by file type) and that `getTexture` has no range.
 */
module LibFileHandler {
  import opened Base
  import opened Documents
  import opened FileHandler

  /** `validPrefixStrings`: the folders, and root keys, `getByFileType` accepts. */
  predicate ValidPrefix(prefix: string) {
    prefix in {"render_controllers", "animations", "animation_controllers", "materials"}
  }

  /** Only the `materials` folder is searched with the `.material` extension. */
  function PrefixExtension(prefix: string): (ext: string)
    ensures ext == "material" <==> prefix == "materials"
    ensures ext == "json" <==> prefix != "materials"
  {
    if prefix == "materials" then "material" else "json"
  }

  /** `getByFileType(type)`: the keys under `data[type]` of every file in the folder `type`. */
  method GetByFileType(ws: Workspace, prefix: string) returns (r: FilesSearchResponse)
    requires ValidPrefix(prefix)
    ensures r == Respond(Scanned(ws.findFiles(FolderGlob(prefix, PrefixExtension(prefix))), ws.open,
                                 RootKeyEntries(prefix)))
  {
    r := ScanRootKeys(ws, prefix, FolderGlob(prefix, PrefixExtension(prefix)));
  }

  /** The folder each file type the newer handler reads by root keys is addressed by here. */
  function PrefixOf(type_: FileType): (prefix: string)
    requires type_ in {Material, Animation, AnimationController, RenderController}
    ensures ValidPrefix(prefix)
  {
    match type_
    case Material => "materials"
    case Animation => "animations"
    case AnimationController => "animation_controllers"
    case RenderController => "render_controllers"
  }

  /**
   * For the four types both generations read by root keys, the two searches
   * use the same glob and the same root, so they list the same definitions.
   */
  lemma {:induction false} ByFileTypeGenerationsAgree(ws: Workspace, type_: FileType)
    requires type_ in {Material, Animation, AnimationController, RenderController}
    ensures SimilarFormat(type_) && PrefixOf(type_) == RootKey(type_)
    ensures PrefixExtension(PrefixOf(type_)) == FileExtension(type_)
    ensures Scanned(ws.findFiles(FolderGlob(PrefixOf(type_), PrefixExtension(PrefixOf(type_)))), ws.open,
                    RootKeyEntries(PrefixOf(type_))) ==
            Scanned(ws.findFiles(FolderGlob(RootKey(type_), FileExtension(type_))), ws.open,
                    RootKeyEntries(RootKey(type_)))
  {
  }

  /** The root key read for a side: `'client'` reads client entities, anything else server entities. */
  function SideRoot(side: string): (root: string)
    ensures side == "client" <==> root == "minecraft:client_entity"
    ensures side != "client" <==> root == "minecraft:entity"
  {
    if side == "client" then "minecraft:client_entity" else "minecraft:entity"
  }

  /** The folder is chosen from the root: `entity/` for client entities, `entities/` otherwise. */
  function RootFolder(root: string): (folder: string)
    ensures root == "minecraft:client_entity" <==> folder == "entity"
    ensures root != "minecraft:client_entity" <==> folder == "entities"
  {
    if root == "minecraft:client_entity" then "entity" else "entities"
  }

  /** `getEntities(type)`. */
  method GetEntities(ws: Workspace, side: string) returns (r: FilesSearchResponse)
    ensures r == Respond(Scanned(ws.findFiles(EntityGlob(RootFolder(SideRoot(side)))), ws.open,
                                 EntityEntries(SideRoot(side))))
  {
    var entityFileType := SideRoot(side);
    var folder := RootFolder(entityFileType);
    r := ScanEntities(ws, entityFileType, folder);
  }

  /**
   * The side `'client'` searches exactly what the newer handler searches for
   * client entity identifiers, and the side `'server'` what it searches for
   * server entity identifiers.
   */
  lemma {:induction false} EntitiesGenerationsAgree()
    ensures SideRoot("client") == EntityRoot(ClientEntityIdentifier)
    ensures RootFolder(SideRoot("client")) == EntityFolder(ClientEntityIdentifier)
    ensures SideRoot("server") == EntityRoot(ServerEntityIdentifier)
    ensures RootFolder(SideRoot("server")) == EntityFolder(ServerEntityIdentifier)
  {
  }

  /** What the older `getTexture` returns: a uri and a name, without a range. */
  datatype TextureRef = TextureRef(uri: Uri, name: string)

  /** `getTexture(path)`: the first file found, named by the path, or `undefined`. */
  function GetTexture(ws: Workspace, path: string): (r: Option<TextureRef>)
    ensures r.None? <==> ws.findFiles(TextureGlob(path)) == []
    ensures r.Some? ==> r.value == TextureRef(ws.findFiles(TextureGlob(path))[0], path)
    ensures r.Some? ==>
      (FileHandler.GetTexture(ws, path).Some? &&
       FileHandler.GetTexture(ws, path).value.uri == r.value.uri &&
       FileHandler.GetTexture(ws, path).value.name == r.value.name)
  {
    var textures := ws.findFiles(TextureGlob(path));
    if |textures| > 0 then Some(TextureRef(textures[0], path)) else None
  }
}
