/**
 * `FileSearcher`: finds every definition of a type through the response
 * cache, and one definition by its identifier.
 */
module FileSearcher {
  import opened Base
  import opened Documents
  import opened FileHandler
  import opened ResponseCache

  /** The types `findByType` has an extractor for; any other type gives an empty response. */
  predicate Searchable(type_: FileType) {
    type_ in {Particle, ServerEntityIdentifier, ClientEntityIdentifier, SoundEffect, Geometry,
              Animation, AnimationController, Material, RenderController}
  }

  /** What the extractor `findByType` hands to the cache would produce for a type. */
  function Fetched(ws: Workspace, type_: FileType): (r: Completion<FilesSearchResponse>)
    ensures r.Normal? ==> Aligned(r.value)
  {
    match type_
    case Particle =>
      Normal(Respond(Scanned(ws.findFiles(ParticleGlob), ws.open, ParticleEntries)))
    case ServerEntityIdentifier =>
      Normal(Respond(Scanned(ws.findFiles(EntityGlob(EntityFolder(type_))), ws.open, EntityEntries(EntityRoot(type_)))))
    case ClientEntityIdentifier =>
      Normal(Respond(Scanned(ws.findFiles(EntityGlob(EntityFolder(type_))), ws.open, EntityEntries(EntityRoot(type_)))))
    case SoundEffect =>
      Normal(Respond(SoundDefinitionList(ws.findFiles(SoundDefinitionsGlob), ws.open)))
    case Geometry =>
      var g := ScannedOrThrow(ws.findFiles(GeometryGlob), GeometryLists(ws.open));
      if g.Throw? then Throw else Normal(Respond(g.value))
    case Animation | AnimationController | Material | RenderController =>
      Normal(Respond(Scanned(ws.findFiles(FolderGlob(RootKey(type_), FileExtension(type_))), ws.open,
                             RootKeyEntries(RootKey(type_)))))
    case _ => Normal(EmptyResponse)
  }

  /** The response of `findByType` on a cache `m`. */
  function SearchResult(m: Cache, ws: Workspace, type_: FileType): Completion<FilesSearchResponse> {
    if !Searchable(type_) then Normal(EmptyResponse)
    else if type_ in m then FromCacheIn(m, type_, None)
    else
      match Fetched(ws, type_)
      case Throw => Throw
      case Normal(data) => FromCacheIn(SetCacheIn(m, type_, data, None), type_, None)
  }

  /** The cache after `findByType`: the extractor's response is stored only the first time. */
  function SearchCache(m: Cache, ws: Workspace, type_: FileType): (r: Cache)
    ensures type_ in m || !Searchable(type_) ==> r == m
    ensures forall other :: other != type_ ==> (other in r <==> other in m) && (other in m ==> r[other] == m[other])
    ensures Searchable(type_) && Fetched(ws, type_).Normal? ==> type_ in r
  {
    if !Searchable(type_) || type_ in m then m
    else
      match Fetched(ws, type_)
      case Throw => m
      case Normal(data) => SetCacheIn(m, type_, data, None)
  }

  /**
   * Searching a type twice gives the same response and leaves the cache as
   * the first search left it: the extractor runs at most once per type.
   */
  lemma {:induction false} SearchTwice(m: Cache, ws: Workspace, type_: FileType)
    requires SearchResult(m, ws, type_).Normal?
    ensures SearchCache(SearchCache(m, ws, type_), ws, type_) == SearchCache(m, ws, type_)
    ensures SearchResult(SearchCache(m, ws, type_), ws, type_) == SearchResult(m, ws, type_)
  {
  }

  /**
   * The first search of a type returns exactly the pairs of identifier and
   * definition its extractor produced, regrouped file by file.
   */
  lemma {:induction false} FirstSearchLists(m: Cache, ws: Workspace, type_: FileType, s: Symbol)
    requires Searchable(type_) && type_ !in m && Fetched(ws, type_).Normal?
    ensures SearchResult(m, ws, type_).Normal?
    ensures var r := SearchResult(m, ws, type_).value;
      var data := Fetched(ws, type_).value;
      (exists k :: 0 <= k < |r.files| && Symbol(r.identifiers[k], r.files[k]) == s) <==>
      exists i :: 0 <= i < |data.files| && s == Symbol(data.identifiers[i], data.files[i])
  {
    FromCacheAllAfterFirstSet(m, type_, Fetched(ws, type_).value, s);
  }

  /** The first index of `x` in `xs`: `Array.prototype.indexOf`. */
  function FirstIndex(xs: seq<string>, x: string): (r: Option<nat>)
    ensures r.None? <==> x !in xs
    ensures r.Some? ==> r.value < |xs| && xs[r.value] == x
    ensures r.Some? ==> forall j :: 0 <= j < r.value ==> xs[j] != x
  {
    if xs == [] then None
    else if xs[0] == x then Some(0)
    else
      match FirstIndex(xs[1..], x)
      case None => None
      case Some(i) => Some(i + 1)
  }

  /** `keys.find(key => key.startsWith(prefix))`. */
  function FirstWithPrefix(keys: seq<string>, prefix: string): (r: Option<nat>)
    ensures r.None? <==> forall j :: 0 <= j < |keys| ==> !StartsWith(keys[j], prefix)
    ensures r.Some? ==> r.value < |keys| && StartsWith(keys[r.value], prefix)
    ensures r.Some? ==> forall j :: 0 <= j < r.value ==> !StartsWith(keys[j], prefix)
  {
    if keys == [] then None
    else if StartsWith(keys[0], prefix) then Some(0)
    else
      match FirstWithPrefix(keys[1..], prefix)
      case None =>
        assert forall j :: 1 <= j < |keys| ==> keys[j] == keys[1..][j - 1];
        None
      case Some(i) => Some(i + 1)
  }

  /** Materials and geometries may be named without their parent (`name:parent`). */
  predicate Parented(type_: FileType) {
    type_ == Material || type_ == Geometry
  }

  /**
   * The identifier looked up by `findByIndentifier`: the one given, or, for
   * a parented type it is not found as, the first identifier that starts
   * with it followed by `:`.
   */
  function Resolved(type_: FileType, identifiers: seq<string>, identifier: string): string {
    if Parented(type_) && identifier !in identifiers then
      match FirstWithPrefix(identifiers, identifier + ":")
      case Some(k) => identifiers[k]
      case None => identifier
    else identifier
  }

  /**
   * `findByIndentifier` once the response is known: the definition at the
   * first index of the resolved identifier, or nothing.
   */
  function FindIdentifier(type_: FileType, response: FilesSearchResponse, identifier: string): (r: Option<FileData>)
    ensures r.Some? ==>
      exists i :: 0 <= i < |response.files| && i < |response.identifiers| && r.value == response.files[i] &&
        (response.identifiers[i] == identifier ||
         (Parented(type_) && identifier !in response.identifiers &&
          StartsWith(response.identifiers[i], identifier + ":")))
    ensures Aligned(response) && identifier in response.identifiers ==>
      r == Some(response.files[FirstIndex(response.identifiers, identifier).value]) && r.value.name == identifier
    ensures !Parented(type_) && identifier !in response.identifiers ==> r.None?
    ensures (identifier !in response.identifiers &&
             forall j :: 0 <= j < |response.identifiers| ==> !StartsWith(response.identifiers[j], identifier + ":")) ==>
      r.None?
    ensures (Aligned(response) && Parented(type_) && identifier !in response.identifiers &&
             FirstWithPrefix(response.identifiers, identifier + ":").Some?) ==>
      r == Some(response.files[FirstWithPrefix(response.identifiers, identifier + ":").value])
  {
    var id := Resolved(type_, response.identifiers, identifier);
    match FirstIndex(response.identifiers, id)
    case Some(i) =>
      if i < |response.files| then Some(response.files[i]) else None
    case None => None
  }

  /** `FileSearcher`: the extractors of the workspace behind the shared response cache. */
  class FileSearcher {
    const cache: ResponseCache
    const ws: Workspace

    constructor (ws: Workspace, cache: ResponseCache)
      ensures this.ws == ws && this.cache == cache
    {
      this.ws := ws;
      this.cache := cache;
    }

    /** `findByType(type)`. */
    method FindByType(type_: FileType) returns (r: Completion<FilesSearchResponse>)
      modifies cache
      ensures r == SearchResult(old(cache.byType), ws, type_)
      ensures cache.byType == SearchCache(old(cache.byType), ws, type_)
    {
      if !Searchable(type_) {
        return Normal(EmptyResponse);
      }
      var fetched := Fetch(type_);
      var called;
      r, called := cache.SetOrGetFromCache(type_, fetched, None, false);
    }

    /** Runs the extractor `findByType` chooses for a searchable type. */
    method Fetch(type_: FileType) returns (r: Completion<FilesSearchResponse>)
      requires Searchable(type_)
      ensures r == Fetched(ws, type_)
    {
      match type_
      case Particle =>
        var response := GetParticles(ws);
        r := Normal(response);
      case ServerEntityIdentifier =>
        var response := GetEntities(ws, type_);
        r := Normal(response);
      case ClientEntityIdentifier =>
        var response := GetEntities(ws, type_);
        r := Normal(response);
      case SoundEffect =>
        var response := GetSoundDefinitions(ws);
        r := Normal(response);
      case Geometry =>
        r := GetGeometries(ws);
      case Animation =>
        var response := GetByFileType(ws, type_);
        r := Normal(response);
      case AnimationController =>
        var response := GetByFileType(ws, type_);
        r := Normal(response);
      case Material =>
        var response := GetByFileType(ws, type_);
        r := Normal(response);
      case RenderController =>
        var response := GetByFileType(ws, type_);
        r := Normal(response);
    }

    /** `findByIndentifier(type, identifier)`: a throwing search throws; otherwise the definition or nothing. */
    method FindByIdentifier(type_: FileType, identifier: string) returns (r: Completion<Option<FileData>>)
      modifies cache
      ensures SearchResult(old(cache.byType), ws, type_).Throw? ==> r.Throw?
      ensures SearchResult(old(cache.byType), ws, type_).Normal? ==>
        r == Normal(FindIdentifier(type_, SearchResult(old(cache.byType), ws, type_).value, identifier))
      ensures cache.byType == SearchCache(old(cache.byType), ws, type_)
    {
      var response := FindByType(type_);
      if response.Throw? {
        return Throw;
      }
      r := Normal(FindIdentifier(type_, response.value, identifier));
    }
  }
}
