/**
 * The windows and doors prompt builders: which catalog entries each prompt
 * describes, which optional sections it carries and when a builder returns
 * `None`. The wording itself is opaque.
 */
module WindowsPrompts {
  import opened Common
  import opened TenantBase
  import opened WindowsConfig

  /** A line of the grilles-and-glass prompt. */
  datatype GlazingLine = GrilleLine(pattern: Item) | GlassLine(glass: Item)

  datatype Prompt =
    | Cleanup
    | WindowFrame(project: Item, door: Item, windowType: Item, style: Item, material: Item, color: Item)
    | GrillesGlass(lines: seq<GlazingLine>)
    | Trim(style: Item, color: Item)
    | Doors(door: Item, material: Item, color: Item)
    | PatioEnclosure(enclosure: Item, material: Item, color: Item, glass: Item)
    | QualityCheck(doorChecks: bool, enclosureChecks: bool)

  /** The window-frame prompt has a DOOR INSTALLATION section and says "and doors". */
  predicate HasDoorSection(p: Prompt)
    requires p.WindowFrame?
  {
    p.door.id != "none"
  }

  /** `next((x for x in table if x['id'] == sel.get(key, dflt)), fallback)`. */
  function Pick(table: seq<Item>, sel: Dict, key: string, dflt: string, fallback: Item): Item
  {
    FindById(table, ItemId, Get(sel, key, VStr(dflt)), fallback)
  }

  /** The selected value names an entry of the table and is not `none`. */
  predicate NamesSome(table: seq<Item>, v: Val)
  {
    HasId(table, ItemId, v) && v != VStr("none")
  }

  /**
   * For a table whose first entry is 'none', the lookup that falls back to
   * that entry picks something other than 'none' iff the selection names a
   * listed id other than 'none'.
   */
  lemma PickNone(table: seq<Item>, sel: Dict, key: string)
    requires |table| > 0 && table[0].id == "none"
    ensures Pick(table, sel, key, "none", table[0]).id != "none" <==> NamesSome(table, Get(sel, key, VStr("none")))
  {
    LookupId(table, Get(sel, key, VStr("none")), table[0]);
  }

  function CleanupPrompt(): Prompt
  {
    Cleanup
  }

  function DoorType(sel: Dict): Item { Pick(DOOR_TYPES, sel, "door_type", "none", DOOR_TYPES[0]) }
  function FrameMaterial(sel: Dict): Item { Pick(FRAME_MATERIALS, sel, "frame_material", "vinyl", FRAME_MATERIALS[0]) }
  function FrameColor(sel: Dict): Item { Pick(FRAME_COLORS, sel, "frame_color", "white", FRAME_COLORS[0]) }

  /**
   * `get_window_frame_prompt`: six lookups (the window type falls back to
   * double hung, the others to their first entry); the door section and the
   * "and doors" wording appear iff the selected door type is a listed one
   * other than 'none'.
   */
  function WindowFramePrompt(sel: Dict): (r: Prompt)
    ensures r.WindowFrame?
    ensures HasDoorSection(r) <==> NamesSome(DOOR_TYPES, Get(sel, "door_type", VStr("none")))
    ensures !HasId(WINDOW_TYPES, ItemId, Get(sel, "window_type", VStr("double_hung"))) ==>
      r.windowType == WINDOW_TYPES[1]
    ensures HasId(WINDOW_TYPES, ItemId, Get(sel, "window_type", VStr("double_hung"))) ==>
      Get(sel, "window_type", VStr("double_hung")) == VStr(r.windowType.id)
    ensures !HasId(PROJECT_TYPES, ItemId, Get(sel, "project_type", VStr("replace_existing"))) ==>
      r.project == PROJECT_TYPES[0]
  {
    PickNone(DOOR_TYPES, sel, "door_type");
    LookupId(WINDOW_TYPES, Get(sel, "window_type", VStr("double_hung")), WINDOW_TYPES[1]);
    LookupId(PROJECT_TYPES, Get(sel, "project_type", VStr("replace_existing")), PROJECT_TYPES[0]);
    WindowFrame(
      Pick(PROJECT_TYPES, sel, "project_type", "replace_existing", PROJECT_TYPES[0]),
      DoorType(sel),
      Pick(WINDOW_TYPES, sel, "window_type", "double_hung", WINDOW_TYPES[1]),
      Pick(WINDOW_STYLES, sel, "window_style", "modern", WINDOW_STYLES[0]),
      FrameMaterial(sel),
      FrameColor(sel))
  }

  /** The glass options that change nothing visible. */
  predicate PlainGlass(g: Item)
  {
    g.id in ["clear", "low_e"]
  }

  /**
   * `get_grilles_glass_prompt` as written: the early `None` test, the two
   * feature lines, then a second `None` test on an empty line list.
   */
  function GrillesGlassPrompt(sel: Dict): (r: Option<Prompt>)
    ensures r.Some? ==> r.value.GrillesGlass? && 1 <= |r.value.lines| <= 2
  {
    var grille := Pick(GRILLE_PATTERNS, sel, "grille_pattern", "none", GRILLE_PATTERNS[0]);
    var glass := Pick(GLASS_OPTIONS, sel, "glass_option", "clear", GLASS_OPTIONS[0]);
    if grille.id == "none" && PlainGlass(glass) then None
    else
      var lines := (if grille.id != "none" then [GrilleLine(grille)] else [])
        + (if !PlainGlass(glass) then [GlassLine(glass)] else []);
      if lines == [] then None else Some(GrillesGlass(lines))
  }

  /**
   * The grilles-and-glass prompt is `None` iff no grille pattern other than
   * 'none' is named and the glass is missing, unknown, clear or low-E; the
   * second `None` test after the feature lines can never fire.
   */
  lemma GrillesGlassSpec(sel: Dict)
    ensures GrillesGlassPrompt(sel).None? <==>
      && !NamesSome(GRILLE_PATTERNS, Get(sel, "grille_pattern", VStr("none")))
      && (var g := Get(sel, "glass_option", VStr("clear"));
          !HasId(GLASS_OPTIONS, ItemId, g) || g == VStr("clear") || g == VStr("low_e"))
    ensures GrillesGlassPrompt(sel).Some? ==>
      ((exists p :: GrilleLine(p) in GrillesGlassPrompt(sel).value.lines) <==>
        NamesSome(GRILLE_PATTERNS, Get(sel, "grille_pattern", VStr("none"))))
  {
    var grille := Pick(GRILLE_PATTERNS, sel, "grille_pattern", "none", GRILLE_PATTERNS[0]);
    var glass := Pick(GLASS_OPTIONS, sel, "glass_option", "clear", GLASS_OPTIONS[0]);
    PickNone(GRILLE_PATTERNS, sel, "grille_pattern");
    LookupId(GLASS_OPTIONS, Get(sel, "glass_option", VStr("clear")), GLASS_OPTIONS[0]);
    if !(grille.id == "none" && PlainGlass(glass)) {
      var lines := (if grille.id != "none" then [GrilleLine(grille)] else [])
        + (if !PlainGlass(glass) then [GlassLine(glass)] else []);
      assert lines != [];
      if grille.id != "none" {
        assert lines[0] == GrilleLine(grille);
      } else {
        assert forall p :: GrilleLine(p) !in lines;
      }
    }
  }

  /** `get_trim_prompt`: `None` for the standard style. */
  function TrimPrompt(sel: Dict): (r: Option<Prompt>)
    ensures r.None? <==>
      var t := Get(sel, "trim_style", VStr("standard"));
      !HasId(TRIM_STYLES, ItemId, t) || t == VStr("standard")
    ensures r.Some? ==> r.value.Trim? && r.value.color == FrameColor(sel)
  {
    var t := Get(sel, "trim_style", VStr("standard"));
    LookupId(TRIM_STYLES, t, TRIM_STYLES[0]);
    var style := Pick(TRIM_STYLES, sel, "trim_style", "standard", TRIM_STYLES[0]);
    if style.id == "standard" then None else Some(Trim(style, FrameColor(sel)))
  }

  /** `get_doors_prompt`: `None` unless a listed door type other than 'none' is selected. */
  function DoorsPrompt(sel: Dict): (r: Option<Prompt>)
    ensures r.Some? <==> NamesSome(DOOR_TYPES, Get(sel, "door_type", VStr("none")))
    ensures r.Some? ==> r.value.Doors? && r.value.material == FrameMaterial(sel) && r.value.color == FrameColor(sel)
  {
    PickNone(DOOR_TYPES, sel, "door_type");
    var door := DoorType(sel);
    if door.id == "none" then None else Some(Doors(door, FrameMaterial(sel), FrameColor(sel)))
  }

  /**
   * `get_patio_enclosure_prompt`: `None` unless a listed enclosure other than
   * 'none' is selected; the glass falls back to double pane.
   */
  function PatioEnclosurePrompt(sel: Dict): (r: Option<Prompt>)
    ensures r.Some? <==> NamesSome(PATIO_ENCLOSURE_TYPES, Get(sel, "enclosure_type", VStr("none")))
    ensures r.Some? ==> r.value.PatioEnclosure?
    ensures r.Some? && !HasId(ENCLOSURE_GLASS_TYPES, ItemId, Get(sel, "enclosure_glass_type", VStr("double_pane"))) ==>
      r.value.glass == ENCLOSURE_GLASS_TYPES[1]
  {
    PickNone(PATIO_ENCLOSURE_TYPES, sel, "enclosure_type");
    LookupId(ENCLOSURE_GLASS_TYPES, Get(sel, "enclosure_glass_type", VStr("double_pane")), ENCLOSURE_GLASS_TYPES[1]);
    var enclosure := Pick(PATIO_ENCLOSURE_TYPES, sel, "enclosure_type", "none", PATIO_ENCLOSURE_TYPES[0]);
    if enclosure.id == "none" then None
    else
      Some(PatioEnclosure(enclosure, FrameMaterial(sel), FrameColor(sel),
        Pick(ENCLOSURE_GLASS_TYPES, sel, "enclosure_glass_type", "double_pane", ENCLOSURE_GLASS_TYPES[1])))
  }

  /** With nothing selected, doors and enclosure prompts are both `None`. */
  lemma OptionalStepsDefaultOff()
    ensures DoorsPrompt(map[]).None? && PatioEnclosurePrompt(map[]).None?
    ensures TrimPrompt(map[]).None? && GrillesGlassPrompt(map[]).None?
  {
    GrillesGlassSpec(map[]);
  }

  /**
   * `get_quality_check_prompt`: the door checks appear iff the scope's
   * 'doors' is truthy and the enclosure checks iff its 'patio_enclosure' is.
   */
  function QualityCheckPrompt(scope: Option<Dict>): (r: Prompt)
    ensures r.QualityCheck?
    ensures r.doorChecks <==> scope.Some? && "doors" in scope.value && Truthy(scope.value["doors"])
    ensures r.enclosureChecks <==>
      scope.Some? && "patio_enclosure" in scope.value && Truthy(scope.value["patio_enclosure"])
  {
    var s := OrEmpty(scope);
    QualityCheck(Truthy(GetOpt(s, "doors")), Truthy(GetOpt(s, "patio_enclosure")))
  }

  /**
   * `get_prompt`: the seven steps dispatch to their builders (the quality
   * check gets the scope, the others the selections); any other step raises
   * ValueError.
   */
  function GetPrompt(step: string, selections: Option<Dict>, scope: Option<Dict>): (r: Result<Option<Prompt>, PyError>)
    ensures r.Err? <==> step !in PIPELINE_STEPS
    ensures r.Err? ==> r.error.ValueError?
    ensures step == "quality_check" ==> r == Ok(Some(QualityCheckPrompt(scope)))
  {
    var sel := OrEmpty(selections);
    if step == "cleanup" then Ok(Some(CleanupPrompt()))
    else if step == "window_frame" then Ok(Some(WindowFramePrompt(sel)))
    else if step == "grilles_glass" then Ok(GrillesGlassPrompt(sel))
    else if step == "trim" then Ok(TrimPrompt(sel))
    else if step == "doors" then Ok(DoorsPrompt(sel))
    else if step == "patio_enclosure" then Ok(PatioEnclosurePrompt(sel))
    else if step == "quality_check" then
      assert QualityCheckPrompt(Some(OrEmpty(scope))) == QualityCheckPrompt(scope);
      Ok(Some(QualityCheckPrompt(Some(OrEmpty(scope)))))
    else Err(ValueError("Unknown pipeline step: " + step))
  }

  /**
   * `get_screen_insertion_prompt`, the pipeline executor's entry point: the
   * window-frame prompt, whatever feature is asked for.
   */
  function ScreenInsertionPrompt(featureType: Val, options: Dict): Prompt
  {
    WindowFramePrompt(options)
  }

  /** The feature type plays no part, so every insertion step renders window frames. */
  lemma ScreenInsertionIgnoresFeature(f1: Val, f2: Val, options: Dict)
    ensures ScreenInsertionPrompt(f1, options) == ScreenInsertionPrompt(f2, options)
    ensures ScreenInsertionPrompt(f1, options).WindowFrame?
  {
  }
}
