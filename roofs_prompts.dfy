/**
 * The roofs prompt builders. Unlike the other verticals they read the
 * selections' hint strings directly, and the module offers no insertion
 * entry point for the pipeline executor.
 */
module RoofsPrompts {
  import opened Common
  import opened RoofsConfig

  datatype Prompt =
    | Cleanup
    | RoofMaterial(materialHint: Val, colorHint: Val)
    | SolarPanels(hint: Val)
    | GuttersTrim(hint: Val)
    | QualityCheck

  /** The entry points this prompts module defines, as the executor looks them up. */
  const DEFINES_SCREEN_INSERTION_PROMPT := false
  const DEFINES_INSERTION_PROMPT := false
  /** `get_quality_check_prompt()` takes no positional argument. */
  const QUALITY_CHECK_ARITY := 0

  function CleanupPrompt(): Prompt
  {
    Cleanup
  }

  /**
   * `get_roof_material_prompt`: the prompt names the material and color
   * hints, defaulting to architectural asphalt shingles and charcoal gray.
   */
  function RoofMaterialPrompt(sel: Dict): (r: Prompt)
    ensures r.RoofMaterial?
    ensures "roof_material_hint" !in sel ==> r.materialHint == VStr("dimensional architectural asphalt shingles")
    ensures "roof_color_hint" !in sel ==> r.colorHint == VStr("charcoal gray")
    ensures "roof_material_hint" in sel ==> r.materialHint == sel["roof_material_hint"]
    ensures "roof_color_hint" in sel ==> r.colorHint == sel["roof_color_hint"]
  {
    RoofMaterial(
      Get(sel, "roof_material_hint", VStr("dimensional architectural asphalt shingles")),
      Get(sel, "roof_color_hint", VStr("charcoal gray")))
  }

  /** `get_solar_panels_prompt`: `None` iff the solar option is missing or exactly 'none'. */
  function SolarPanelsPrompt(sel: Dict): (r: Option<Prompt>)
    ensures r.None? <==> "solar_option" !in sel || sel["solar_option"] == VStr("none")
    ensures r.Some? ==> r.value == SolarPanels(Get(sel, "solar_option_hint", VStr("")))
  {
    if Get(sel, "solar_option", VStr("none")) == VStr("none") then None
    else Some(SolarPanels(Get(sel, "solar_option_hint", VStr(""))))
  }

  /** `get_gutters_trim_prompt`: `None` iff the gutter option is missing or exactly 'none'. */
  function GuttersTrimPrompt(sel: Dict): (r: Option<Prompt>)
    ensures r.None? <==> "gutter_option" !in sel || sel["gutter_option"] == VStr("none")
    ensures r.Some? ==> r.value == GuttersTrim(Get(sel, "gutter_option_hint", VStr("")))
  {
    if Get(sel, "gutter_option", VStr("none")) == VStr("none") then None
    else Some(GuttersTrim(Get(sel, "gutter_option_hint", VStr(""))))
  }

  function QualityCheckPrompt(): Prompt
  {
    QualityCheck
  }

  /**
   * `get_prompt`: the five pipeline steps dispatch to their builders and any
   * other step name yields `None` rather than an error.
   */
  function GetPrompt(step: string, sel: Dict): (r: Option<Prompt>)
    ensures step !in PIPELINE_STEPS ==> r.None?
    ensures step in ["cleanup", "roof_material", "quality_check"] ==> r.Some?
    ensures step == "solar_panels" ==> r == SolarPanelsPrompt(sel)
    ensures step == "gutters_trim" ==> r == GuttersTrimPrompt(sel)
  {
    if step == "cleanup" then Some(CleanupPrompt())
    else if step == "roof_material" then Some(RoofMaterialPrompt(sel))
    else if step == "solar_panels" then SolarPanelsPrompt(sel)
    else if step == "gutters_trim" then GuttersTrimPrompt(sel)
    else if step == "quality_check" then Some(QualityCheckPrompt())
    else None
  }

  /**
   * The router never raises: an unknown step and a skipped optional step
   * both come back as `None`, so a caller cannot tell them apart.
   */
  lemma UnknownStepLooksSkipped(sel: Dict)
    requires "solar_option" !in sel
    ensures GetPrompt("solar_panels", sel) == GetPrompt("no_such_step", sel)
    ensures GetPrompt("solar_panels", sel).None?
  {
  }
}
