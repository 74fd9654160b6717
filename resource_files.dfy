/**
 * Per-file identifier extraction of the `src/files` generation: each resource
 * file kind turns one parsed JSON document into a `Data` map from identifier
 * to the range of its definition. Four strategies exist (keys under an
 * optional root, a single `description.identifier`, the two geometry schemas,
 * dialogue scene tags), and the concrete kinds only fix their constants.
 *
 * `getRangeFromPath` and the `nodeToRange` used by `getFileData` belong to a
 * helper module that is not part of this model; both are parameters here.
 */
module ResourceFiles {
  import opened Base
  import opened Json
  import opened Documents

  /** `getRangeFromPath(node, path, document)`: the range of the node at a path, if any. */
  type RangeAt = Path -> Option<Range>

  /** The `Data` map: identifier to the range of its definition. */
  type Data = map<string, Range>

  /** One `response.set(identifier, { range })` a loop may perform, or none. */
  type Entry = Option<(string, Range)>

  predicate Sets(e: Entry, id: string) {
    e.Some? && e.value.0 == id
  }

  /** Entry `i` is the last one that sets `id`. */
  predicate LastSet(es: seq<Entry>, i: int, id: string) {
    0 <= i < |es| && Sets(es[i], id) && forall k :: i < k < |es| ==> !Sets(es[k], id)
  }

  /** The map that a sequence of `Map.set` calls leaves behind, starting from an empty map. */
  function Fold(es: seq<Entry>): Data {
    if es == [] then map[]
    else
      var d := Fold(es[..|es| - 1]);
      var e := es[|es| - 1];
      if e.Some? then d[e.value.0 := e.value.1] else d
  }

  /** One more entry sets its identifier, when it has one, over the map of the entries before it. */
  lemma {:induction false} FoldStep(es: seq<Entry>, i: nat)
    requires i < |es|
    ensures Fold(es[..i + 1]) == if es[i].Some? then Fold(es[..i])[es[i].value.0 := es[i].value.1] else Fold(es[..i])
  {
    assert es[..i + 1][..i] == es[..i];
  }

  /** An identifier is in the map iff some entry sets it. */
  lemma {:induction false} FoldDomain(es: seq<Entry>)
    ensures forall id :: id in Fold(es) <==> exists i :: 0 <= i < |es| && Sets(es[i], id)
  {
    if es != [] {
      var prev := es[..|es| - 1];
      FoldDomain(prev);
      assert forall i :: 0 <= i < |prev| ==> prev[i] == es[i];
    }
  }

  /** Every value in the map was set by some entry for that identifier. */
  lemma {:induction false} FoldValue(es: seq<Entry>)
    ensures forall id :: id in Fold(es) ==>
      exists i :: 0 <= i < |es| && Sets(es[i], id) && Fold(es)[id] == es[i].value.1
  {
    if es != [] {
      var prev := es[..|es| - 1];
      FoldValue(prev);
      assert forall i :: 0 <= i < |prev| ==> prev[i] == es[i];
      var e := es[|es| - 1];
      forall id | id in Fold(es)
        ensures exists i :: 0 <= i < |es| && Sets(es[i], id) && Fold(es)[id] == es[i].value.1
      {
        if e.Some? && e.value.0 == id {
          assert Sets(es[|es| - 1], id);
        } else {
          assert id in Fold(prev) && Fold(es)[id] == Fold(prev)[id];
          var i :| 0 <= i < |prev| && Sets(prev[i], id) && Fold(prev)[id] == prev[i].value.1;
          assert Sets(es[i], id);
        }
      }
    }
  }

  /** A later `set` of the same identifier replaces an earlier one: the last entry's value stays. */
  lemma {:induction false} FoldLast(es: seq<Entry>, i: int, id: string)
    requires LastSet(es, i, id)
    ensures id in Fold(es) && Fold(es)[id] == es[i].value.1
  {
    var prev := es[..|es| - 1];
    if i < |es| - 1 {
      assert LastSet(prev, i, id) by {
        assert forall k :: 0 <= k < |prev| ==> prev[k] == es[k];
      }
      FoldLast(prev, i, id);
      assert !Sets(es[|es| - 1], id);
    }
  }

  /** There are never more identifiers than `set` calls. */
  lemma {:induction false} FoldSize(es: seq<Entry>)
    ensures |Fold(es)| <= |es|
  {
    if es != [] {
      FoldSize(es[..|es| - 1]);
    }
  }

  /** Adding an entry that sets nothing leaves the map unchanged. */
  lemma {:induction false} FoldSkip(es: seq<Entry>)
    ensures Fold(es + [None]) == Fold(es)
  {
    assert (es + [None])[..|es|] == es;
  }

  // ---------------------------------------------------------------------------
  // Key-based files (src/files/types/KeyBasedFile.ts, src/files/KeyBasedFile.ts)
  // ---------------------------------------------------------------------------

  /** `content[root]` when there is a root, otherwise the whole content. */
  function Scope(root: Option<string>, content: JSON): Option<JSON> {
    if root.Some? then Get(content, root.value) else Some(content)
  }

  /** The range path of an identifier: `[root, id]`, or `[id]` without a root. */
  function KeyPath(root: Option<string>, id: string): (p: Path)
    ensures root.Some? ==> p == [Key(root.value), Key(id)]
    ensures root.None? ==> p == [Key(id)]
    ensures |p| >= 1 && p[|p| - 1] == Key(id)
  {
    if root.Some? then [Key(root.value), Key(id)] else [Key(id)]
  }

  function KeyEntry(root: Option<string>, id: string, rangeAt: RangeAt): Entry {
    match rangeAt(KeyPath(root, id))
    case Some(range) => Some((id, range))
    case None => None
  }

  function KeyEntries(root: Option<string>, ids: seq<string>, rangeAt: RangeAt): (es: seq<Entry>)
    ensures |es| == |ids|
    ensures forall i :: 0 <= i < |ids| ==> es[i] == KeyEntry(root, ids[i], rangeAt)
  {
    seq(|ids|, i requires 0 <= i < |ids| => KeyEntry(root, ids[i], rangeAt))
  }

  /** The map the key loop builds from the keys `ids`: see `KeyBasedIdentifiers`. */
  function KeyBasedData(root: Option<string>, content: JSON, rangeAt: RangeAt): Data {
    var scope := Scope(root, content);
    if Present(scope) then Fold(KeyEntries(root, Keys(scope.value), rangeAt)) else map[]
  }

  /** Setting each key whose range is found keeps exactly those keys, each with its own range. */
  lemma {:induction false} KeyEntriesFold(root: Option<string>, ids: seq<string>, rangeAt: RangeAt)
    ensures forall id :: id in Fold(KeyEntries(root, ids, rangeAt)) <==>
      id in ids && rangeAt(KeyPath(root, id)).Some?
    ensures forall id :: id in Fold(KeyEntries(root, ids, rangeAt)) ==>
      Fold(KeyEntries(root, ids, rangeAt))[id] == rangeAt(KeyPath(root, id)).value
  {
    var es := KeyEntries(root, ids, rangeAt);
    FoldDomain(es);
    FoldValue(es);
    forall id | id in ids && rangeAt(KeyPath(root, id)).Some?
      ensures id in Fold(es)
    {
      var i :| 0 <= i < |ids| && ids[i] == id;
      assert Sets(es[i], id);
    }
  }

  /**
   * What a key-based file yields: each key of the rooted content (of the whole
   * document when there is no root) whose range is found, with that range.
   * A missing or falsy rooted content yields nothing.
   */
  lemma {:induction false} KeyBasedIdentifiers(root: Option<string>, content: JSON, rangeAt: RangeAt)
    ensures forall id :: id in KeyBasedData(root, content, rangeAt) <==>
      Present(Scope(root, content)) && id in Keys(Scope(root, content).value) && rangeAt(KeyPath(root, id)).Some?
    ensures forall id :: id in KeyBasedData(root, content, rangeAt) ==>
      KeyBasedData(root, content, rangeAt)[id] == rangeAt(KeyPath(root, id)).value
  {
    var scope := Scope(root, content);
    if Present(scope) {
      KeyEntriesFold(root, Keys(scope.value), rangeAt);
    }
  }

  /** `extractIdentifiers` of a key-based file, as the loop over `Object.keys` runs it. */
  method ExtractKeyBased(root: Option<string>, content: JSON, rangeAt: RangeAt) returns (response: Data)
    ensures response == KeyBasedData(root, content, rangeAt)
  {
    response := map[];
    var scope := Scope(root, content);
    if Present(scope) {
      var identifiers := Keys(scope.value);
      ghost var es := KeyEntries(root, identifiers, rangeAt);
      var i := 0;
      while i < |identifiers|
        invariant 0 <= i <= |identifiers|
        invariant response == Fold(es[..i])
      {
        var identifier := identifiers[i];
        var path := KeyPath(root, identifier);
        var range := rangeAt(path);
        FoldStep(es, i);
        if range.Some? {
          response := response[identifier := range.value];
        }
        i := i + 1;
      }
      assert es[..|identifiers|] == es;
    }
  }

  /**
   * Without a root every top-level key is an identifier when its range is
   * found, `format_version` included.
   */
  lemma {:induction false} KeyBasedWithoutRoot(content: JSON, rangeAt: RangeAt, id: string)
    requires content.JObj? && Get(content, id).Some? && rangeAt([Key(id)]).Some?
    ensures id in KeyBasedData(None, content, rangeAt)
    ensures KeyBasedData(None, content, rangeAt)[id] == rangeAt([Key(id)]).value
  {
    KeyBasedIdentifiers(None, content, rangeAt);
  }

  /**
   * Whether one key is kept depends on its own range lookup only: two range
   * lookups that agree except at the path of `id` give maps that agree
   * everywhere except at `id`.
   */
  lemma {:induction false} KeyBasedLocal(root: Option<string>, content: JSON, r1: RangeAt, r2: RangeAt, id: string)
    requires forall p :: p != KeyPath(root, id) ==> r1(p) == r2(p)
    ensures forall k :: k != id ==>
      (k in KeyBasedData(root, content, r1) <==> k in KeyBasedData(root, content, r2))
    ensures forall k :: k != id && k in KeyBasedData(root, content, r1) ==>
      KeyBasedData(root, content, r1)[k] == KeyBasedData(root, content, r2)[k]
  {
    KeyBasedIdentifiers(root, content, r1);
    KeyBasedIdentifiers(root, content, r2);
    forall k | k != id
      ensures KeyPath(root, k) != KeyPath(root, id)
    {
      assert KeyPath(root, k)[|KeyPath(root, k)| - 1] == Key(k);
    }
  }

  // ---------------------------------------------------------------------------
  // Description-based files (src/files/types/DescriptionBasedFile.ts, src/files/DescriptionBasedFile.ts)
  // ---------------------------------------------------------------------------

  /**
   * What a description-based file yields: at most one identifier, the
   * `description.identifier` of a truthy `content[root]`, with the range of the
   * whole root node.
   */
  function DescriptionBasedData(root: string, content: JSON, rangeAt: RangeAt): (d: Data)
    ensures |d| <= 1
    ensures d != map[] <==>
      Present(Get(content, root)) &&
      DescriptionIdentifier(Get(content, root).value).Normal? &&
      DescriptionIdentifier(Get(content, root).value).value.Some? &&
      rangeAt([Key(root)]).Some?
    ensures forall id :: id in d ==>
      DescriptionIdentifier(Get(content, root).value) == Normal(Some(id)) &&
      d[id] == rangeAt([Key(root)]).value
  {
    var node := Get(content, root);
    if !Present(node) then map[]
    else
      match DescriptionIdentifier(node.value)
      case Normal(Some(identifier)) =>
        (match rangeAt([Key(root)])
         case Some(range) => map[identifier := range]
         case None => map[])
      case _ => map[]
  }

  /**
   * The same check written as one possible `set` call, as the bulk extractors
   * of the older handlers perform it before pushing a definition.
   */
  function DescriptionEntry(root: string, content: JSON, rangeAt: RangeAt): Entry {
    var node := Get(content, root);
    if !Present(node) then None
    else
      match DescriptionIdentifier(node.value)
      case Normal(Some(identifier)) =>
        (match rangeAt([Key(root)])
         case Some(range) => Some((identifier, range))
         case None => None)
      case _ => None
  }

  /** Performing that one `set` on an empty map gives exactly the description-based map. */
  lemma {:induction false} DescriptionEntryFold(root: string, content: JSON, rangeAt: RangeAt)
    ensures Fold([DescriptionEntry(root, content, rangeAt)]) == DescriptionBasedData(root, content, rangeAt)
  {
    assert [DescriptionEntry(root, content, rangeAt)][..0] == [];
  }

  /** A truthy root node is never `null`, so the identifier check cannot throw here. */
  lemma {:induction false} DescriptionBasedNeverThrows(root: string, content: JSON)
    requires Present(Get(content, root))
    ensures DescriptionIdentifier(Get(content, root).value).Normal?
  {
  }

  // ---------------------------------------------------------------------------
  // Geometry files (src/files/Geometry.ts)
  // ---------------------------------------------------------------------------

  const GeometryPrefix := "geometry."
  const GeometryArray := "minecraft:geometry"

  /** A legacy top-level key: kept when it starts with `geometry.` and its range is found. */
  function LegacyGeometryEntry(key: string, rangeAt: RangeAt): Entry {
    if StartsWith(key, GeometryPrefix) then
      match rangeAt([Key(key)])
      case Some(range) => Some((key, range))
      case None => None
    else None
  }

  function LegacyGeometryEntries(keys: seq<string>, rangeAt: RangeAt): (es: seq<Entry>)
    ensures |es| == |keys|
    ensures forall i :: 0 <= i < |keys| ==> es[i] == LegacyGeometryEntry(keys[i], rangeAt)
  {
    seq(|keys|, i requires 0 <= i < |keys| => LegacyGeometryEntry(keys[i], rangeAt))
  }

  /** Element `i` of `minecraft:geometry`: its description identifier and the range at `['minecraft:geometry', i]`. */
  function ArrayGeometryEntry(element: JSON, i: nat, rangeAt: RangeAt): Entry {
    match DescriptionIdentifier(element)
    case Normal(Some(identifier)) =>
      (match rangeAt([Key(GeometryArray), Index(i)])
       case Some(range) => Some((identifier, range))
       case None => None)
    case _ => None
  }

  function ArrayGeometryEntries(elements: seq<JSON>, rangeAt: RangeAt): (es: seq<Entry>)
    ensures |es| == |elements|
    ensures forall i :: 0 <= i < |elements| ==> es[i] == ArrayGeometryEntry(elements[i], i, rangeAt)
  {
    seq(|elements|, i requires 0 <= i < |elements| => ArrayGeometryEntry(elements[i], i, rangeAt))
  }

  /** The verification of some element throws: it is `null`. */
  predicate SomeNull(elements: seq<JSON>) {
    exists i :: 0 <= i < |elements| && elements[i].JNull?
  }

  /** The `minecraft:geometry` value, when it is truthy; its elements otherwise count as none. */
  function GeometryElements(content: JSON): seq<JSON> {
    var g := Get(content, GeometryArray);
    if Present(g) then Elements(g.value) else []
  }

  /** The map the legacy loop builds from the top-level keys: see `LegacyGeometryIdentifiers`. */
  function LegacyGeometryData(keys: seq<string>, rangeAt: RangeAt): Data {
    Fold(LegacyGeometryEntries(keys, rangeAt))
  }

  /** The legacy schema keeps exactly the `geometry.` keys whose range is found, each with its range. */
  lemma {:induction false} LegacyGeometryIdentifiers(keys: seq<string>, rangeAt: RangeAt)
    ensures forall id :: id in LegacyGeometryData(keys, rangeAt) <==>
      id in keys && StartsWith(id, GeometryPrefix) && rangeAt([Key(id)]).Some?
    ensures forall id :: id in LegacyGeometryData(keys, rangeAt) ==>
      LegacyGeometryData(keys, rangeAt)[id] == rangeAt([Key(id)]).value
  {
    var es := LegacyGeometryEntries(keys, rangeAt);
    FoldDomain(es);
    FoldValue(es);
    forall id | id in keys && StartsWith(id, GeometryPrefix) && rangeAt([Key(id)]).Some?
      ensures id in Fold(es)
    {
      var i :| 0 <= i < |keys| && keys[i] == id;
      assert Sets(es[i], id);
    }
  }

  /** The map the array loop builds, or a throw when an element is `null`. */
  function ArrayGeometryData(elements: seq<JSON>, rangeAt: RangeAt): Completion<Data> {
    if SomeNull(elements) then Throw else Normal(Fold(ArrayGeometryEntries(elements, rangeAt)))
  }

  /** What a geometry file yields: the release selects the schema (see `GeometrySchemas`). */
  function GeometryData(content: JSON, rangeAt: RangeAt): Completion<Data> {
    match Release(content)
    case Throw => Throw
    case Normal(release) =>
      if !ReleaseTruthy(release) then Normal(map[])
      else if release.value < 12 then Normal(LegacyGeometryData(Keys(content), rangeAt))
      else ArrayGeometryData(GeometryElements(content), rangeAt)
  }

  /**
   * The release read from `format_version` selects the schema: below 12 the
   * top-level `geometry.` keys, from 12 on the description identifiers of the
   * `minecraft:geometry` array. No release (0 or NaN) yields nothing; a
   * `format_version` that is not a string, or a `null` element of the array,
   * makes the call throw.
   */
  lemma {:induction false} GeometrySchemas(content: JSON, rangeAt: RangeAt)
    ensures Release(content).Throw? ==> GeometryData(content, rangeAt).Throw?
    ensures Release(content).Normal? && !ReleaseTruthy(Release(content).value) ==>
      GeometryData(content, rangeAt) == Normal(map[])
    ensures Release(content).Normal? && ReleaseTruthy(Release(content).value) && Release(content).value.value < 12 ==>
      GeometryData(content, rangeAt).Normal? &&
      forall id :: id in GeometryData(content, rangeAt).value <==>
        id in Keys(content) && StartsWith(id, GeometryPrefix) && rangeAt([Key(id)]).Some?
    ensures Release(content).Normal? && ReleaseTruthy(Release(content).value) && Release(content).value.value >= 12 ==>
      (GeometryData(content, rangeAt).Throw? <==> SomeNull(GeometryElements(content)))
  {
    LegacyGeometryIdentifiers(Keys(content), rangeAt);
  }

  /** The loop over the top-level keys of a legacy geometry file. */
  method ExtractLegacyGeometry(keys: seq<string>, rangeAt: RangeAt) returns (response: Data)
    ensures response == LegacyGeometryData(keys, rangeAt)
  {
    response := map[];
    ghost var es := LegacyGeometryEntries(keys, rangeAt);
    var i := 0;
    while i < |keys|
      invariant 0 <= i <= |keys|
      invariant response == Fold(es[..i])
    {
      var geometry := keys[i];
      FoldStep(es, i);
      if StartsWith(geometry, GeometryPrefix) {
        var range := rangeAt([Key(geometry)]);
        if range.Some? {
          response := response[geometry := range.value];
        }
      }
      i := i + 1;
    }
    assert es[..|keys|] == es;
  }

  /** The indexed loop over the `minecraft:geometry` array. */
  method ExtractArrayGeometry(documentGeometries: seq<JSON>, rangeAt: RangeAt) returns (r: Completion<Data>)
    ensures r == ArrayGeometryData(documentGeometries, rangeAt)
  {
    var response: Data := map[];
    ghost var es := ArrayGeometryEntries(documentGeometries, rangeAt);
    var i := 0;
    while i < |documentGeometries|
      invariant 0 <= i <= |documentGeometries|
      invariant response == Fold(es[..i])
      invariant forall k :: 0 <= k < i ==> !documentGeometries[k].JNull?
    {
      var geometry := documentGeometries[i];
      var identifier := DescriptionIdentifier(geometry);
      if identifier.Throw? {
        return Throw;
      }
      FoldStep(es, i);
      if identifier.value.Some? {
        var range := rangeAt([Key(GeometryArray), Index(i)]);
        if range.Some? {
          response := response[identifier.value.value := range.value];
        }
      }
      i := i + 1;
    }
    assert es[..|documentGeometries|] == es;
    return Normal(response);
  }

  /** `extractIdentifiers` of a geometry file. */
  method ExtractGeometry(content: JSON, rangeAt: RangeAt) returns (r: Completion<Data>)
    ensures r == GeometryData(content, rangeAt)
  {
    var formatVersion := Get(content, "format_version");
    if !Present(formatVersion) {
      return Normal(map[]);
    }
    if !formatVersion.value.JStr? {
      return Throw;
    }
    var release := VersionRelease(formatVersion.value.s);
    if !ReleaseTruthy(release) {
      return Normal(map[]);
    }
    if release.value < 12 {
      var response := ExtractLegacyGeometry(Keys(content), rangeAt);
      return Normal(response);
    }
    r := ExtractArrayGeometry(GeometryElements(content), rangeAt);
  }

  /**
   * From release 12 on, an identifier maps to the range of the LAST element
   * that declares it and whose range is found.
   */
  lemma {:induction false} GeometryLaterElementWins(content: JSON, rangeAt: RangeAt, id: string, i: nat)
    requires Release(content).Normal? && ReleaseTruthy(Release(content).value) && Release(content).value.value >= 12
    requires GeometryData(content, rangeAt).Normal?
    requires LastSet(ArrayGeometryEntries(GeometryElements(content), rangeAt), i, id)
    ensures id in GeometryData(content, rangeAt).value
    ensures GeometryData(content, rangeAt).value[id] == rangeAt([Key(GeometryArray), Index(i)]).value
  {
    FoldLast(ArrayGeometryEntries(GeometryElements(content), rangeAt), i, id);
  }

  /** A key without the `geometry.` prefix adds nothing to the legacy schema's identifiers. */
  lemma {:induction false} LegacyIgnoresOtherKey(keys: seq<string>, k: string, rangeAt: RangeAt)
    requires !StartsWith(k, GeometryPrefix)
    ensures LegacyGeometryData(keys + [k], rangeAt) == LegacyGeometryData(keys, rangeAt)
  {
    var es := LegacyGeometryEntries(keys, rangeAt);
    assert LegacyGeometryEntries(keys + [k], rangeAt) == es + [None];
    FoldSkip(es);
  }

  /** The legacy schema never reads `minecraft:geometry`: adding that member changes nothing. */
  lemma {:induction false} LegacyIgnoresGeometryArray(members: seq<(string, JSON)>, v: JSON, rangeAt: RangeAt)
    requires Release(JObj(members)).Normal?
    requires ReleaseTruthy(Release(JObj(members)).value) && Release(JObj(members)).value.value < 12
    ensures GeometryData(JObj(members + [(GeometryArray, v)]), rangeAt) == GeometryData(JObj(members), rangeAt)
  {
    var c1, c2 := JObj(members), JObj(members + [(GeometryArray, v)]);
    GetAppend(members, GeometryArray, v, "format_version");
    assert Release(c2) == Release(c1);
    KeysAppend(members, GeometryArray, v);
    if GeometryArray !in Keys(c1) {
      assert !StartsWith(GeometryArray, GeometryPrefix) by {
        assert GeometryArray[0] == 'm' && GeometryPrefix[0] == 'g';
      }
      LegacyIgnoresOtherKey(Keys(c1), GeometryArray, rangeAt);
    }
    assert LegacyGeometryData(Keys(c2), rangeAt) == LegacyGeometryData(Keys(c1), rangeAt);
  }

  /** The current schema never reads `geometry.` keys: adding such a member changes nothing. */
  lemma {:induction false} CurrentIgnoresLegacyKeys(members: seq<(string, JSON)>, key: string, v: JSON, rangeAt: RangeAt)
    requires StartsWith(key, GeometryPrefix)
    requires Release(JObj(members)).Normal?
    requires ReleaseTruthy(Release(JObj(members)).value) && Release(JObj(members)).value.value >= 12
    ensures GeometryData(JObj(members + [(key, v)]), rangeAt) == GeometryData(JObj(members), rangeAt)
  {
    assert key != "format_version" && key != GeometryArray by {
      assert key[0] == 'g';
      assert "format_version"[0] == 'f' && GeometryArray[0] == 'm';
    }
    GetAppend(members, key, v, "format_version");
    GetAppend(members, key, v, GeometryArray);
  }

  // ---------------------------------------------------------------------------
  // Dialogue files (src/files/Dialogue.ts)
  // ---------------------------------------------------------------------------

  const DialogueRoot := "minecraft:npc_dialogue"

  /** `content[root]?.scenes ?? []`: the scenes, or none when any step is missing. */
  function Scenes(content: JSON): seq<JSON> {
    var scenes := GetOpt(Get(content, DialogueRoot), "scenes");
    if scenes.Some? then Elements(scenes.value) else []
  }

  /** Scene `i`: a truthy string `scene_tag` with the range at `[root, 'scenes', i]`. */
  function SceneEntry(scene: JSON, i: nat, rangeAt: RangeAt): Entry {
    var tag := Get(scene, "scene_tag");
    if Present(tag) && tag.value.JStr? then
      match rangeAt([Key(DialogueRoot), Key("scenes"), Index(i)])
      case Some(range) => Some((tag.value.s, range))
      case None => None
    else None
  }

  function SceneEntries(scenes: seq<JSON>, rangeAt: RangeAt): (es: seq<Entry>)
    ensures |es| == |scenes|
    ensures forall i :: 0 <= i < |scenes| ==> es[i] == SceneEntry(scenes[i], i, rangeAt)
  {
    seq(|scenes|, i requires 0 <= i < |scenes| => SceneEntry(scenes[i], i, rangeAt))
  }

  /** What a dialogue file yields: see `DialogueIdentifiers`. */
  function DialogueData(content: JSON, rangeAt: RangeAt): Data {
    Fold(SceneEntries(Scenes(content), rangeAt))
  }

  /** `extractIdentifiers` of a dialogue file: the indexed loop over the scenes. */
  method ExtractDialogue(content: JSON, rangeAt: RangeAt) returns (response: Data)
    ensures response == DialogueData(content, rangeAt)
  {
    response := map[];
    var scenes := Scenes(content);
    ghost var es := SceneEntries(scenes, rangeAt);
    var i := 0;
    while i < |scenes|
      invariant 0 <= i <= |scenes|
      invariant response == Fold(es[..i])
    {
      var scene := scenes[i];
      var path := [Key(DialogueRoot), Key("scenes"), Index(i)];
      var tag := Get(scene, "scene_tag");
      FoldStep(es, i);
      if Present(tag) && tag.value.JStr? {
        var range := rangeAt(path);
        if range.Some? {
          response := response[tag.value.s := range.value];
        }
      }
      i := i + 1;
    }
    assert es[..|scenes|] == es;
  }

  /**
   * Only scenes with a truthy `scene_tag` are indexed, by that tag, with the
   * range of the scene; there are never more tags than scenes.
   */
  lemma {:induction false} DialogueIdentifiers(content: JSON, rangeAt: RangeAt)
    ensures |DialogueData(content, rangeAt)| <= |Scenes(content)|
    ensures forall tag :: tag in DialogueData(content, rangeAt) ==>
      exists i :: (0 <= i < |Scenes(content)| && Get(Scenes(content)[i], "scene_tag") == Some(JStr(tag)) &&
                   rangeAt([Key(DialogueRoot), Key("scenes"), Index(i)]) == Some(DialogueData(content, rangeAt)[tag]))
  {
    var scenes := Scenes(content);
    var es := SceneEntries(scenes, rangeAt);
    var d := Fold(es);
    FoldSize(es);
    forall tag | tag in d
      ensures exists i :: (0 <= i < |scenes| && Get(scenes[i], "scene_tag") == Some(JStr(tag)) &&
                           rangeAt([Key(DialogueRoot), Key("scenes"), Index(i)]) == Some(d[tag]))
    {
      FoldValue(es);
      var i :| 0 <= i < |es| && Sets(es[i], tag) && d[tag] == es[i].value.1;
      assert es[i] == SceneEntry(scenes[i], i, rangeAt);
    }
  }

  /** A later scene with the same tag replaces an earlier one: the last scene that sets a tag gives its range. */
  lemma {:induction false} DialogueLastSceneWins(content: JSON, rangeAt: RangeAt, tag: string, i: int)
    requires LastSet(SceneEntries(Scenes(content), rangeAt), i, tag)
    ensures tag in DialogueData(content, rangeAt)
    ensures Some(DialogueData(content, rangeAt)[tag]) == rangeAt([Key(DialogueRoot), Key("scenes"), Index(i)])
  {
    var es := SceneEntries(Scenes(content), rangeAt);
    FoldLast(es, i, tag);
    assert es[i] == SceneEntry(Scenes(content)[i], i, rangeAt);
  }

  /** A missing root or a missing `scenes` yields an empty map. */
  lemma {:induction false} DialogueWithoutScenes(content: JSON, rangeAt: RangeAt)
    requires GetOpt(Get(content, DialogueRoot), "scenes").None?
    ensures DialogueData(content, rangeAt) == map[]
  {
    FoldDomain(SceneEntries(Scenes(content), rangeAt));
  }

  // ---------------------------------------------------------------------------
  // Same-file behaviour definitions (src/files/ServerEntity.ts)
  // ---------------------------------------------------------------------------

  datatype BehaviourDefinitionType = Events | ComponentGroups

  /** The key a behaviour definition kind is stored under. */
  function BehaviourKey(key: BehaviourDefinitionType): string {
    if key == Events then "events" else "component_groups"
  }

  /**
   * `getBehaviourDefinitionInFile`: the definition named `definition` under
   * `minecraft:entity` / `events` or `component_groups` of the same document.
   * `toRange` is the helper `nodeToRange(node, document)` that `getFileData`
   * calls.
   */
  function BehaviourDefinitionInFile(file: ParsedFile, key: BehaviourDefinitionType, definition: string,
                                     toRange: Node -> Range): (r: Option<FileData>)
    ensures r.Some? ==> Loaded(file)
    ensures r.Some? ==>
      var entity := Get(file.data, "minecraft:entity");
      Present(entity) && Present(Get(entity.value, BehaviourKey(key))) &&
      Present(Get(Get(entity.value, BehaviourKey(key)).value, definition))
    ensures r.Some? ==>
      var pointer := file.node.value([Key("minecraft:entity"), Key(BehaviourKey(key)), Key(definition)]);
      pointer.Some? && r.value == FileData(file.document.uri, definition, toRange(pointer.value))
  {
    var keyName := BehaviourKey(key);
    if !Loaded(file) then None
    else
      var entity := Get(file.data, "minecraft:entity");
      if !Present(entity) then None
      else
        var group := Get(entity.value, keyName);
        if !Present(group) then None
        else if !Present(Get(group.value, definition)) then None
        else
          var path := [Key("minecraft:entity"), Key(keyName), Key(definition)];
          match file.node.value(path)
          case Some(pointer) => Some(FileData(file.document.uri, definition, toRange(pointer)))
          case None => None
  }

  /** When every step is present and the node is found, the lookup succeeds. */
  lemma {:induction false} BehaviourDefinitionFound(file: ParsedFile, key: BehaviourDefinitionType, definition: string,
                                 toRange: Node -> Range)
    requires Loaded(file)
    requires Present(Get(file.data, "minecraft:entity"))
    requires Present(Get(Get(file.data, "minecraft:entity").value, BehaviourKey(key)))
    requires Present(Get(Get(Get(file.data, "minecraft:entity").value, BehaviourKey(key)).value, definition))
    requires file.node.value([Key("minecraft:entity"), Key(BehaviourKey(key)), Key(definition)]).Some?
    ensures BehaviourDefinitionInFile(file, key, definition, toRange).Some?
  {
  }

  // ---------------------------------------------------------------------------
  // The resource file kinds
  // ---------------------------------------------------------------------------

  /** How a kind of file is read. */
  datatype Strategy =
    | KeyBased(root: Option<string>)
    | DescriptionBased(descriptionRoot: string)
    | GeometryVersions
    | DialogueScenes

  /** A concrete resource file class: its type, strategy and search glob. */
  datatype ResourceKind = ResourceKind(fileType: FileType, strategy: Strategy, glob: string)

  const AnimationKind := ResourceKind(Animation, KeyBased(Some("animations")), "**/animations/**/*.json")
  const AnimationControllerKind :=
    ResourceKind(AnimationController, KeyBased(Some("animation_controllers")), "**/animation_controllers/**/*.json")
  const ClientEntityKind :=
    ResourceKind(ClientEntityIdentifier, DescriptionBased("minecraft:client_entity"), "**/entity/**/*.json")
  const RenderControllerKind :=
    ResourceKind(RenderController, KeyBased(Some("render_controllers")), "**/render_controllers/**/*.json")
  /** Declared with the client entity type, as the source does. */
  const ServerBlockKind := ResourceKind(ClientEntityIdentifier, DescriptionBased("minecraft:block"), "**/blocks/**/*.json")
  const ParticleKind := ResourceKind(Particle, DescriptionBased("particle_effect"), "**/particles/**/*.json")
  /** No root: every top-level key of the sound definitions file is an identifier. */
  const SoundEffectKind := ResourceKind(SoundEffect, KeyBased(None), "**/sounds/sound_definitions.json")
  const MaterialKind := ResourceKind(Material, KeyBased(Some("materials")), "**/materials/**/*.material")
  const ServerEntityKind :=
    ResourceKind(ServerEntityIdentifier, DescriptionBased("minecraft:entity"), "**/entities/**/*.json")
  const GeometryKind := ResourceKind(Geometry, GeometryVersions, "**/models/**/*.json")
  const DialogueKind := ResourceKind(Dialogue, DialogueScenes, "**/dialogue/**/*.json")

  /** What a file of a given strategy yields. */
  function StrategyData(s: Strategy, content: JSON, rangeAt: RangeAt): Completion<Data> {
    match s
    case KeyBased(root) => Normal(KeyBasedData(root, content, rangeAt))
    case DescriptionBased(root) => Normal(DescriptionBasedData(root, content, rangeAt))
    case GeometryVersions => GeometryData(content, rangeAt)
    case DialogueScenes => Normal(DialogueData(content, rangeAt))
  }

  /** `extractIdentifiers`, dispatched on the kind's strategy. Only geometry files can throw. */
  method ExtractIdentifiers(kind: ResourceKind, content: JSON, rangeAt: RangeAt) returns (r: Completion<Data>)
    ensures r == StrategyData(kind.strategy, content, rangeAt)
    ensures r.Throw? ==> kind.strategy == GeometryVersions
  {
    match kind.strategy
    case KeyBased(root) =>
      var d := ExtractKeyBased(root, content, rangeAt);
      r := Normal(d);
    case DescriptionBased(root) =>
      r := Normal(DescriptionBasedData(root, content, rangeAt));
    case GeometryVersions =>
      r := ExtractGeometry(content, rangeAt);
    case DialogueScenes =>
      var d := ExtractDialogue(content, rangeAt);
      r := Normal(d);
  }
}
