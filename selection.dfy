/**
 * `Selection` (src/lib/Selection.ts): what the cursor of an entity file
 * points at, the path to it, the word, its parent and key, and the resource
 * type the word refers to.
 */
module Selection {
  import opened Base
  import opened Json
  import opened Cursor

  /** `getPathToCursor`: the location path in a `.json` document, nothing elsewhere. */
  function PathToCursor(fileName: string, location: Path): (path: Path)
    ensures !EndsWith(fileName, ".json") ==> path == []
    ensures EndsWith(fileName, ".json") ==> path == location
  {
    if EndsWith(fileName, ".json") then location else []
  }

  /** The `checkGroups` table, in order. */
  const SelectionRules: seq<Rule<FileType>> := [
    Rule(AnimationController, Some(["controller.animation."]), Some(["animation_controllers", "animations"])),
    Rule(RenderController, Some(["controller."]), Some(["render_controllers"])),
    Rule(Animation, Some(["animation."]), Some(["animations"])),
    Rule(Geometry, Some(["geometry."]), Some(["geometry"])),
    Rule(Particle, None, Some(["particle_effects"])),
    Rule(Texture, None, Some(["textures"])),
    Rule(Material, None, Some(["materials"])),
    Rule(ComponentGroup, None, Some(["component_groups"])),
    Rule(Animate, None, Some(["animate"])),
    Rule(SoundEffect, None, Some(["sound_effects"]))
  ]

  /** The entity override: an `identifier` under `description` names the entity of its file. */
  predicate EntityIdentifierKey(parent: Option<Segment>, key: Option<Segment>) {
    IsKey(key, "identifier") && IsKey(parent, "description")
  }

  /** The type after the rules, before the entity override: `event` only when no rule matched. */
  function RuleType(text: string, parent: Option<Segment>, key: Option<Segment>): FileType {
    var t := LastMatch(SelectionRules, text, parent, NoType);
    if IsKey(key, "event") && t == NoType then EventIdentifier else t
  }

  /** `getSelectionType`. */
  function SelectionType(path: Path, text: string, parent: Option<Segment>, key: Option<Segment>): FileType {
    var t := RuleType(text, parent, key);
    if EntityIdentifierKey(parent, key) then
      if Key("minecraft:client_entity") in path then ClientEntityIdentifier
      else if Key("minecraft:entity") in path then ServerEntityIdentifier
      else t
    else t
  }

  /** No rule of the table yields `None` or `EventIdentifier`. */
  lemma {:induction false} RuleResults()
    ensures forall j :: 0 <= j < |SelectionRules| ==>
      SelectionRules[j].result != NoType && SelectionRules[j].result != EventIdentifier
  {
  }

  /** The rules alone give `None` exactly when none of them matches. */
  lemma {:induction false} RulesUnmatched(text: string, parent: Option<Segment>)
    ensures LastMatch(SelectionRules, text, parent, NoType) == NoType <==>
      forall j :: 0 <= j < |SelectionRules| ==> !RuleMatches(SelectionRules[j], text, parent)
  {
    RuleResults();
    if forall j :: 0 <= j < |SelectionRules| ==> !RuleMatches(SelectionRules[j], text, parent) {
      LastMatchNone(SelectionRules, text, parent, NoType);
    } else {
      LastMatchSome(SelectionRules, text, parent, NoType);
    }
  }

  /**
   * Outside the entity override, an `event` key gives `EventIdentifier`
   * exactly when no rule matched.
   */
  lemma {:induction false} EventOnlyWhenUnmatched(path: Path, text: string, parent: Option<Segment>)
    requires !IsKey(parent, "description")
    ensures SelectionType(path, text, parent, Some(Key("event"))) == EventIdentifier <==>
      forall j :: 0 <= j < |SelectionRules| ==> !RuleMatches(SelectionRules[j], text, parent)
  {
    RuleResults();
    RulesUnmatched(text, parent);
    if exists j :: 0 <= j < |SelectionRules| && RuleMatches(SelectionRules[j], text, parent) {
      LastMatchSome(SelectionRules, text, parent, NoType);
    }
  }

  /** The entity override wins over every rule: the client root is looked for first. */
  lemma {:induction false} EntityOverride(path: Path, text: string)
    requires Key("minecraft:client_entity") in path || Key("minecraft:entity") in path
    ensures SelectionType(path, text, Some(Key("description")), Some(Key("identifier"))) ==
      if Key("minecraft:client_entity") in path then ClientEntityIdentifier else ServerEntityIdentifier
  {
  }

  /**
   * A `controller.animation.` word is an animation controller under
   * `animations` (its first rule), and a render controller under
   * `render_controllers` (its second rule, which only asks for `controller.`).
   */
  lemma {:induction false} ControllerByParent(text: string, key: Option<Segment>)
    requires StartsWith(text, "controller.animation.")
    requires !IsKey(key, "identifier") && !IsKey(key, "event")
    ensures RuleType(text, Some(Key("animations")), key) == AnimationController
    ensures RuleType(text, Some(Key("render_controllers")), key) == RenderController
  {
    assert text[..11] == "controller." by {
      assert text[..21][..11] == text[..11];
    }
    assert text[0] == 'c';
    assert !StartsWith(text, "animation.") by { assert "animation."[0] == 'a'; }
    assert !StartsWith(text, "geometry.") by { assert "geometry."[0] == 'g'; }
    LastMatchWins(SelectionRules, text, Some(Key("animations")), NoType, 0);
    LastMatchWins(SelectionRules, text, Some(Key("render_controllers")), NoType, 1);
  }

  /** The word under the cursor, its place in the document, and what it refers to. */
  class Selection {
    var path: Path
    var text: string
    var range: Range
    var parent: Option<Segment>
    var key: Option<Segment>
    var type_: FileType

    /**
     * `new Selection(document, position)`, with what the host provides
     * passed in: the document's file name, the location path at the cursor,
     * the word range at the cursor and the document's `getText(range)`.
     */
    constructor (fileName: string, location: Path, wordRange: Range, textIn: Range -> string)
      ensures path == PathToCursor(fileName, location)
      ensures Word(text, range) == StripQuotes(wordRange, textIn)
      ensures (parent, key) == ParentAndKey(path)
      ensures type_ == SelectionType(path, text, parent, key)
    {
      var pathKeys := PathToCursor(fileName, location);
      path := pathKeys;
      var word := StripQuotes(wordRange, textIn);
      text := word.text;
      range := word.range;
      var pk := ParentAndKey(pathKeys);
      parent := pk.0;
      key := pk.1;
      new;
      type_ := GetSelectionType();
    }

    /** `setType(type)`: replaces the type and nothing else. */
    method SetType(t: FileType)
      modifies this
      ensures type_ == t
      ensures path == old(path) && text == old(text) && range == old(range)
      ensures parent == old(parent) && key == old(key)
    {
      type_ := t;
    }

    /** `getSelectionType`: the loop over the rules, then the `event` and entity cases. */
    method GetSelectionType() returns (t: FileType)
      ensures t == SelectionType(path, text, parent, key)
    {
      t := ApplyRules(SelectionRules, text, parent, NoType);
      if IsKey(key, "event") && t == NoType {
        t := EventIdentifier;
      }
      if EntityIdentifierKey(parent, key) {
        if Key("minecraft:client_entity") in path {
          t := ClientEntityIdentifier;
        } else if Key("minecraft:entity") in path {
          t := ServerEntityIdentifier;
        }
      }
    }
  }
}
