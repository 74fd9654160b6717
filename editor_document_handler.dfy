/**
 * `EditorDocumentHandler` (src/handlers/EditorDocumentHandler.ts): the type
 * of the document being edited, read off its file name and its top-level
 * keys, and the predicates that decide which features handle it.
 */
module EditorDocumentHandler {
  import opened Base
  import opened Json
  import Selection

  /** The `pathRoots` table, in its key order: a top-level key and the type it marks. */
  const PathRoots: seq<(string, FileType)> := [
    ("minecraft:client_entity", ClientEntityIdentifier),
    ("minecraft:entity", ServerEntityIdentifier),
    ("minecraft:geometry", Geometry),
    ("animations", Animation),
    ("animation_controllers", AnimationController),
    ("render_controllers", RenderController),
    ("particle_effect", Particle),
    ("sound_definitions", SoundEffect)
  ]

  /** The type after the loop over `roots`: that of the last root that is one of the keys, or `None`. */
  function RootsType(keys: seq<string>, roots: seq<(string, FileType)>): FileType {
    if roots == [] then NoType
    else if roots[|roots| - 1].0 in keys then roots[|roots| - 1].1
    else RootsType(keys, roots[..|roots| - 1])
  }

  /** One more root: it decides when it is a key, otherwise the type so far stands. */
  lemma {:induction false} RootsTypeExtend(keys: seq<string>, roots: seq<(string, FileType)>, i: nat)
    requires i < |roots|
    ensures RootsType(keys, roots[..i + 1]) == if roots[i].0 in keys then roots[i].1 else RootsType(keys, roots[..i])
  {
    assert roots[..i + 1][..i] == roots[..i];
  }

  /** A key of the 1.8 geometry format. */
  predicate HasLegacyGeometryKey(keys: seq<string>) {
    exists k :: k in keys && StartsWith(k, "geometry.")
  }

  /** The type of a parsed JSON document from its top-level keys. */
  function KeysType(keys: seq<string>): FileType {
    if "format_version" !in keys then NoType
    else
      var t := RootsType(keys, PathRoots);
      if t == NoType && HasLegacyGeometryKey(keys) then Geometry else t
  }

  /**
   * `getDocumentType`: `content` is what `cleanJson(document.getText())`
   * gives, `None` when the text does not parse.
   */
  function DocumentType(fileName: string, content: Option<JSON>): FileType {
    if EndsWith(fileName, ".json") then
      if content.None? || !Truthy(content.value) then NoType
      else KeysType(Keys(content.value))
    else if EndsWith(fileName, ".mcfunction") then McFunction
    else NoType
  }

  /** The root that decides is the last one in table order that is a key. */
  lemma {:induction false} LastRootWins(keys: seq<string>, roots: seq<(string, FileType)>, i: int)
    requires 0 <= i < |roots| && roots[i].0 in keys
    requires forall j :: i < j < |roots| ==> roots[j].0 !in keys
    ensures RootsType(keys, roots) == roots[i].1
  {
    if i < |roots| - 1 {
      var prev := roots[..|roots| - 1];
      assert forall j :: i < j < |prev| ==> prev[j] == roots[j];
      LastRootWins(keys, prev, i);
    }
  }

  /** With no root among the keys the loop leaves the type `None`. */
  lemma {:induction false} NoRootMatches(keys: seq<string>, roots: seq<(string, FileType)>)
    requires forall j :: 0 <= j < |roots| ==> roots[j].0 !in keys
    ensures RootsType(keys, roots) == NoType
  {
    if roots != [] {
      var prev := roots[..|roots| - 1];
      assert forall j :: 0 <= j < |prev| ==> prev[j] == roots[j];
      NoRootMatches(keys, prev);
    }
  }

  /** A root among the keys gives that root's type or a later one's, never `None`. */
  lemma {:induction false} SomeRootMatches(keys: seq<string>, roots: seq<(string, FileType)>)
    requires forall j :: 0 <= j < |roots| ==> roots[j].1 != NoType
    requires exists j :: 0 <= j < |roots| && roots[j].0 in keys
    ensures RootsType(keys, roots) != NoType
  {
    var n := |roots| - 1;
    if roots[n].0 !in keys {
      var prev := roots[..n];
      assert forall j :: 0 <= j < n ==> prev[j] == roots[j];
      SomeRootMatches(keys, prev);
    }
  }

  /** File names: `.mcfunction` is a function file; a name that is neither `.json` nor `.mcfunction` has no type. */
  lemma {:induction false} FileNameRules(fileName: string, content: Option<JSON>)
    ensures EndsWith(fileName, ".mcfunction") ==> DocumentType(fileName, content) == McFunction
    ensures !EndsWith(fileName, ".json") && !EndsWith(fileName, ".mcfunction") ==>
      DocumentType(fileName, content) == NoType
  {
    if EndsWith(fileName, ".mcfunction") {
      var n := |fileName|;
      assert fileName[n - 5..] == "ction" by {
        assert fileName[n - 11..][6..] == fileName[n - 5..];
      }
    }
  }

  /** A JSON document that does not parse, or has no `format_version` key, has no type. */
  lemma {:induction false} UnversionedJson(fileName: string, content: Option<JSON>)
    requires EndsWith(fileName, ".json")
    requires content.None? || !Truthy(content.value) || "format_version" !in Keys(content.value)
    ensures DocumentType(fileName, content) == NoType
  {
  }

  /**
   * In a versioned JSON document the last root of the table among the keys
   * decides, and only when there is none does a `geometry.` key make it a
   * geometry file.
   */
  lemma {:induction false} VersionedJson(keys: seq<string>, i: int)
    requires "format_version" in keys
    requires -1 <= i < |PathRoots|
    requires i >= 0 ==> PathRoots[i].0 in keys
    requires forall j :: i < j < |PathRoots| ==> PathRoots[j].0 !in keys
    ensures i >= 0 ==> KeysType(keys) == PathRoots[i].1
    ensures i == -1 ==> KeysType(keys) == if HasLegacyGeometryKey(keys) then Geometry else NoType
  {
    if i >= 0 {
      LastRootWins(keys, PathRoots, i);
    } else {
      NoRootMatches(keys, PathRoots);
    }
  }

  /** A behaviour entity that also has `animations` is classified as an animation file. */
  lemma {:induction false} EntityWithAnimations(keys: seq<string>)
    requires "format_version" in keys && "minecraft:entity" in keys && "animations" in keys
    requires forall j :: 3 < j < |PathRoots| ==> PathRoots[j].0 !in keys
    ensures KeysType(keys) == Animation
  {
    VersionedJson(keys, 3);
  }

  /** `shouldHandleCommandCalls`, as a property of the document type. */
  predicate HandlesCommandCalls(t: FileType) {
    t in {McFunction, Animation, AnimationController}
  }

  /** `isResourceDocument`, as a property of the document type. */
  predicate IsResourceType(t: FileType) {
    t !in {NoType, McFunction}
  }

  /** `shouldHandleSelection`, from whether there is a selection, the document type and the selection type. */
  predicate HandlesSelection(hasSelection: bool, t: FileType, selectionType: FileType) {
    hasSelection && t in {ClientEntityIdentifier, ServerEntityIdentifier} && selectionType != NoType
  }

  /**
   * How the gates relate: a handled selection is always in a resource
   * document; function files are handled for commands but are not resource
   * documents; animations and controllers are both.
   */
  lemma {:induction false} GatesRelate(hasSelection: bool, t: FileType, selectionType: FileType)
    ensures HandlesSelection(hasSelection, t, selectionType) ==> IsResourceType(t) && !HandlesCommandCalls(t)
    ensures t == McFunction ==> HandlesCommandCalls(t) && !IsResourceType(t)
    ensures t in {Animation, AnimationController} ==> HandlesCommandCalls(t) && IsResourceType(t)
    ensures t == NoType ==> !IsResourceType(t) && !HandlesCommandCalls(t) && !HandlesSelection(hasSelection, t, selectionType)
  {
  }

  class EditorDocumentHandler {
    var type_: FileType
    var selection: Selection.Selection?

    /**
     * `new EditorDocumentHandler(document, position, cache, hasSelection)`:
     * the selection is built by the caller (absent when there is none or no
     * position), the document enters as its file name and parsed content.
     */
    constructor (fileName: string, content: Option<JSON>, selection: Selection.Selection?)
      ensures this.selection == selection
      ensures type_ == DocumentType(fileName, content)
    {
      this.selection := selection;
      new;
      type_ := GetDocumentType(fileName, content);
    }

    /** `getDocumentType`: the loop over the root table, then the geometry fallback. */
    method GetDocumentType(fileName: string, content: Option<JSON>) returns (t: FileType)
      ensures t == DocumentType(fileName, content)
    {
      t := NoType;
      if EndsWith(fileName, ".json") {
        if content.None? || !Truthy(content.value) {
          return;
        }
        var keys := Keys(content.value);
        if "format_version" !in keys {
          return;
        }
        var i := 0;
        while i < |PathRoots|
          invariant 0 <= i <= |PathRoots|
          invariant t == RootsType(keys, PathRoots[..i])
        {
          RootsTypeExtend(keys, PathRoots, i);
          if PathRoots[i].0 in keys {
            t := PathRoots[i].1;
          }
          i := i + 1;
        }
        assert PathRoots[..|PathRoots|] == PathRoots;
        if t == NoType {
          if exists k :: k in keys && StartsWith(k, "geometry.") {
            t := Geometry;
          }
        }
      } else if EndsWith(fileName, ".mcfunction") {
        t := McFunction;
      }
    }

    /** `setSelectionType(type)`: only a selection whose type is not `None` (0, falsy) is retyped. */
    method SetSelectionType(t: FileType)
      modifies selection
      ensures selection == old(selection)
      ensures selection != null && old(selection.type_) != NoType ==> selection.type_ == t
      ensures selection != null && old(selection.type_) == NoType ==> selection.type_ == NoType
      ensures selection != null ==>
        selection.path == old(selection.path) && selection.text == old(selection.text) &&
        selection.parent == old(selection.parent) && selection.key == old(selection.key) &&
        selection.range == old(selection.range)
    {
      if selection != null && TypeTruthy(selection.type_) {
        selection.SetType(t);
      }
    }

    predicate ShouldHandleSelection()
      reads this, selection
    {
      HandlesSelection(selection != null, type_, if selection != null then selection.type_ else NoType)
    }

    predicate ShouldHandleCommandCalls()
      reads this
    {
      HandlesCommandCalls(type_)
    }

    predicate IsResourceDocument()
      reads this
    {
      IsResourceType(type_)
    }
  }
}
