/**
 * `SharedProvider` (src/providers/SharedProvider.ts): the cursor-context
 * helpers of the definition and completion providers. Its text types are a
 * separate enumeration, and "no type" is the number -1, written `None` here.
 */
module SharedProvider {
  import opened Base
  import opened Json
  import opened Cursor

  /** The `TextType` enumeration. */
  datatype TextType =
    | AnimationControllerText
    | AnimationText
    | RenderControllerText
    | GeometryText
    | MaterialText
    | ParticleText
    | TextureText
    | ClientEntityIdentifierText
    | ServerEntityIdentifierText
    | EventIdentifierText
    | ComponentGroupText
    | AnimateText

  /** `getCurrentFileType`: the kind of entity file, read off the first path segment. */
  datatype FileKind = FileKind(isClientFile: bool, isBehaviourFile: bool)

  function CurrentFileType(pathKeys: Path): (k: FileKind)
    ensures k.isClientFile <==> pathKeys != [] && pathKeys[0] == Key("minecraft:client_entity")
    ensures k.isBehaviourFile <==> pathKeys != [] && pathKeys[0] == Key("minecraft:entity")
    ensures !(k.isClientFile && k.isBehaviourFile)
  {
    FileKind(IsKey(SegmentAt(pathKeys, 0), "minecraft:client_entity"), IsKey(SegmentAt(pathKeys, 0), "minecraft:entity"))
  }

  /** `getCurrentText`: no text without a word range, otherwise the word with its quotes removed. */
  function CurrentText(wordRange: Option<Range>, textIn: Range -> string): (w: Option<Word>)
    ensures w.None? <==> wordRange.None?
    ensures w.Some? ==> w.value == StripQuotes(wordRange.value, textIn)
  {
    if wordRange.Some? then Some(StripQuotes(wordRange.value, textIn)) else None
  }

  /** The `checkGroups` table, in order; every result is a type, never -1. */
  const TextRules: seq<Rule<Option<TextType>>> := [
    Rule(Some(AnimationControllerText), Some(["controller.animation."]), Some(["animation_controllers", "animations"])),
    Rule(Some(RenderControllerText), Some(["controller."]), Some(["render_controllers"])),
    Rule(Some(AnimationText), Some(["animation."]), Some(["animations"])),
    Rule(Some(GeometryText), Some(["geometry."]), Some(["geometry"])),
    Rule(Some(ParticleText), None, Some(["particle_effects"])),
    Rule(Some(TextureText), None, Some(["textures"])),
    Rule(Some(MaterialText), None, Some(["materials"])),
    Rule(Some(ComponentGroupText), None, Some(["component_groups"])),
    Rule(Some(AnimateText), None, Some(["animate"]))
  ]

  /** The type of a text and whether it points at a definition. */
  datatype TextClass = TextClass(type_: Option<TextType>, isPointerText: bool)

  /** The type once the table and the `event` case are applied. */
  function RulesAndEvent(text: string, parent: Option<Segment>, key: Option<Segment>): Option<TextType> {
    var t := LastMatch(TextRules, text, parent, None);
    if IsKey(key, "event") && t.None? then Some(EventIdentifierText) else t
  }

  /** The type with the entity override applied. */
  function TextTypeOf(text: string, parent: Option<Segment>, key: Option<Segment>, pathKeys: Path): Option<TextType> {
    var t := RulesAndEvent(text, parent, key);
    if IsKey(key, "identifier") && IsKey(parent, "description") then
      if Key("minecraft:client_entity") in pathKeys then Some(ClientEntityIdentifierText)
      else if Key("minecraft:entity") in pathKeys then Some(ServerEntityIdentifierText)
      else t
    else t
  }

  /** `getCurrentTextType`: the loop over the table, the `event` and entity cases, and the pointer flag. */
  method CurrentTextType(text: string, parent: Option<Segment>, key: Option<Segment>, pathKeys: Path)
    returns (r: TextClass)
    ensures r.type_ == TextTypeOf(text, parent, key, pathKeys)
    ensures r.isPointerText <==> r.type_.Some?
  {
    var type_ := ApplyRules(TextRules, text, parent, None);
    if IsKey(key, "event") && type_.None? {
      type_ := Some(EventIdentifierText);
    }
    if IsKey(key, "identifier") && IsKey(parent, "description") {
      if Key("minecraft:client_entity") in pathKeys {
        type_ := Some(ClientEntityIdentifierText);
      } else if Key("minecraft:entity") in pathKeys {
        type_ := Some(ServerEntityIdentifierText);
      }
    }
    var isPointerText := false;
    if type_.Some? {
      isPointerText := true;
    }
    r := TextClass(type_, isPointerText);
  }

  /**
   * A text is a pointer exactly when a rule matched, the key is `event`, or
   * the entity override applies; and an `event` key counts only when no
   * rule matched.
   */
  lemma {:induction false} PointerTextCases(text: string, parent: Option<Segment>, key: Option<Segment>, pathKeys: Path)
    ensures TextTypeOf(text, parent, key, pathKeys).Some? <==>
      (exists j :: 0 <= j < |TextRules| && RuleMatches(TextRules[j], text, parent)) ||
      IsKey(key, "event") ||
      (IsKey(key, "identifier") && IsKey(parent, "description") &&
       (Key("minecraft:client_entity") in pathKeys || Key("minecraft:entity") in pathKeys))
    ensures IsKey(key, "event") && !IsKey(parent, "description") ==>
      (TextTypeOf(text, parent, key, pathKeys) == Some(EventIdentifierText) <==>
       forall j :: 0 <= j < |TextRules| ==> !RuleMatches(TextRules[j], text, parent))
  {
    assert forall j :: 0 <= j < |TextRules| ==>
      TextRules[j].result.Some? && TextRules[j].result != Some(EventIdentifierText);
    if exists j :: 0 <= j < |TextRules| && RuleMatches(TextRules[j], text, parent) {
      LastMatchSome(TextRules, text, parent, None);
    } else {
      LastMatchNone(TextRules, text, parent, None);
    }
  }

  /** A parent that is an array index matches no rule: every rule of the table asks for a string parent. */
  lemma {:induction false} IndexParentMatchesNothing(text: string, i: int)
    ensures forall j :: 0 <= j < |TextRules| ==> !RuleMatches(TextRules[j], text, Some(Index(i)))
    ensures LastMatch(TextRules, text, Some(Index(i)), None) == None
  {
    LastMatchNone(TextRules, text, Some(Index(i)), None);
  }
}
