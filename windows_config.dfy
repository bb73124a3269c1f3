/**
 * The windows and doors vertical: catalog tables, the seven-step pipeline,
 * the frame-color choices and the public configuration.
 */
module WindowsConfig {
  import opened Common
  import opened TenantBase

  const PROJECT_TYPES: seq<Item> := [
    Item("replace_existing", "Replace Existing", 0.0),
    Item("new_opening", "Create New Opening", 0.0),
    Item("enclose_patio", "Enclose Patio", 0.0)
  ]

  const DOOR_TYPES: seq<Item> := [
    Item("none", "Windows Only", 0.0),
    Item("sliding_glass", "Sliding Glass Door", 0.0),
    Item("french", "French Door", 0.0),
    Item("accordion", "Accordion Door", 0.0),
    Item("bifold", "Bi-Fold Door", 0.0)
  ]

  const PATIO_ENCLOSURE_TYPES: seq<Item> := [
    Item("none", "No Enclosure", 0.0),
    Item("three_season", "Three-Season Sunroom", 0.0),
    Item("four_season", "Four-Season Sunroom", 0.0),
    Item("screen_room", "Screen Room", 0.0),
    Item("glass_walls", "Retractable Glass Walls", 0.0)
  ]

  const ENCLOSURE_GLASS_TYPES: seq<Item> := [
    Item("single_pane", "Single Pane", 0.0),
    Item("double_pane", "Double Pane Insulated", 0.0),
    Item("low_e_double", "Low-E Double Pane", 0.0),
    Item("tinted", "Tinted Glass", 0.0)
  ]

  const WINDOW_TYPES: seq<Item> := [
    Item("single_hung", "Single Hung", 0.0),
    Item("double_hung", "Double Hung", 0.0),
    Item("casement", "Casement", 0.0),
    Item("slider", "Slider", 0.0),
    Item("picture", "Picture", 0.0)
  ]

  const WINDOW_STYLES: seq<Item> := [
    Item("modern", "Modern", 0.0),
    Item("traditional", "Traditional", 0.0),
    Item("colonial", "Colonial", 0.0),
    Item("craftsman", "Craftsman", 0.0)
  ]

  /** Frame materials; `price` is the `price_multiplier`. */
  const FRAME_MATERIALS: seq<Item> := [
    Item("vinyl", "Vinyl", 1.0),
    Item("wood", "Wood", 1.5),
    Item("fiberglass", "Fiberglass", 1.3),
    Item("aluminum", "Aluminum", 1.2)
  ]

  const FRAME_COLORS: seq<Item> := [
    Item("white", "White", 0.0),
    Item("tan", "Tan", 0.0),
    Item("brown", "Brown", 0.0),
    Item("black", "Black", 0.0),
    Item("bronze", "Bronze", 0.0)
  ]

  const GRILLE_PATTERNS: seq<Item> := [
    Item("none", "No Grilles", 0.0),
    Item("colonial", "Colonial", 0.0),
    Item("prairie", "Prairie", 0.0),
    Item("craftsman", "Craftsman", 0.0),
    Item("diamond", "Diamond", 0.0)
  ]

  const GLASS_OPTIONS: seq<Item> := [
    Item("clear", "Clear", 0.0),
    Item("low_e", "Low-E", 0.0),
    Item("frosted", "Frosted", 0.0),
    Item("obscure", "Obscure", 0.0),
    Item("rain", "Rain Glass", 0.0)
  ]

  const TRIM_STYLES: seq<Item> := [
    Item("standard", "Standard", 0.0),
    Item("craftsman", "Craftsman", 0.0),
    Item("colonial", "Colonial", 0.0),
    Item("modern", "Modern", 0.0)
  ]

  const PIPELINE_STEPS: seq<string> :=
    ["cleanup", "window_frame", "grilles_glass", "trim", "doors", "patio_enclosure", "quality_check"]

  const STEP_CONFIGS: map<string, StepConfig> := map[
    "cleanup" := CleanupStep(15, "Preparing image"),
    "window_frame" := InsertionStep(None, "window", 30, "Installing window frame"),
    "grilles_glass" := InsertionStep(Some("grilles_glass"), "grilles_glass", 15, "Adding grilles and glass"),
    "trim" := InsertionStep(Some("trim"), "trim", 10, "Installing trim"),
    "doors" := InsertionStep(Some("doors"), "door", 15, "Installing doors"),
    "patio_enclosure" := InsertionStep(Some("patio_enclosure"), "patio_enclosure", 10, "Adding patio enclosure"),
    "quality_check" := QualityCheckStep(5, "Quality check")
  ]

  /**
   * `get_step_config`: every listed step has a well-formed descriptor and any
   * other name gives the empty one.
   */
  function StepConfigOf(name: string): (c: StepConfig)
    ensures name in PIPELINE_STEPS ==> WellFormedStep(c)
    ensures name !in PIPELINE_STEPS ==> c == NoConfig
  {
    if name in STEP_CONFIGS then STEP_CONFIGS[name] else NoConfig
  }

  /** The seven steps form a well-formed pipeline, doors and patio enclosure included. */
  lemma PipelineWellFormed()
    ensures WellFormedPipeline(PIPELINE_STEPS, StepConfigOf)
    ensures |PIPELINE_STEPS| == 7 && "doors" in PIPELINE_STEPS && "patio_enclosure" in PIPELINE_STEPS
  {
    assert Distinct(PIPELINE_STEPS);
  }

  /** The window frame always runs; the four optional steps are gated on same-named keys. */
  lemma StepGating()
    ensures StepConfigOf("window_frame").scopeKey == None
    ensures forall n :: n in ["grilles_glass", "trim", "doors", "patio_enclosure"] ==>
      StepConfigOf(n).scopeKey == Some(n)
  {
  }

  /** The weights in pipeline order are 15, 30, 15, 10, 15, 10, 5 and add up to 100. */
  lemma StepWeights()
    ensures Weights(PIPELINE_STEPS, StepConfigOf) == [15, 30, 15, 10, 15, 10, 5]
    ensures SumInt(Weights(PIPELINE_STEPS, StepConfigOf)) == 100
  {
    var ws := Weights(PIPELINE_STEPS, StepConfigOf);
    assert ws == [15, 30, 15, 10, 15, 10, 5];
    assert SumInt(ws) == 15 + SumInt([30, 15, 10, 15, 10, 5]);
    assert SumInt([30, 15, 10, 15, 10, 5]) == 30 + SumInt([15, 10, 15, 10, 5]);
    assert SumInt([15, 10, 15, 10, 5]) == 15 + SumInt([10, 15, 10, 5]);
    assert SumInt([10, 15, 10, 5]) == 10 + SumInt([15, 10, 5]);
    assert SumInt([15, 10, 5]) == 15 + SumInt([10, 5]);
    assert SumInt([10, 5]) == 10 + SumInt([5]);
  }

  /** Frame-color choices are exactly the frame colors' (id, name) pairs; the others are empty. */
  function GetChoices(): (c: Choices)
    ensures |c.frameColor| == |FRAME_COLORS|
    ensures forall i :: 0 <= i < |FRAME_COLORS| ==>
      c.frameColor[i] == Choice(FRAME_COLORS[i].id, FRAME_COLORS[i].name)
    ensures c.mesh == [] && c.meshColor == [] && c.opacity == []
  {
    Choices([], ItemChoices(FRAME_COLORS), [], [])
  }

  /**
   * The parts of the configuration the model keeps: the frame materials, whose
   * multiplier only the full view carries, and the frame colors and steps, which
   * both views share. The project, door, patio-enclosure and enclosure-glass
   * tables and the two colors, which only the public view has, are not modelled.
   */
  datatype Catalog = Catalog(frameMaterials: seq<Dict>, frameColors: seq<Item>, pipelineSteps: seq<string>)

  /** `get_config`: frame materials lose their `price_multiplier` and keep id and name. */
  function GetConfig(): (c: Catalog)
    ensures |c.frameMaterials| == |FRAME_MATERIALS|
    ensures forall i :: 0 <= i < |FRAME_MATERIALS| ==>
      "price_multiplier" !in c.frameMaterials[i] && c.frameMaterials[i] == PublicRecord(FRAME_MATERIALS[i])
    ensures c.frameColors == FRAME_COLORS && c.pipelineSteps == PIPELINE_STEPS
  {
    Catalog(StripTable(FRAME_MATERIALS, "price_multiplier"), FRAME_COLORS, PIPELINE_STEPS)
  }

  /** `get_full_config_with_pricing`: frame materials keep their multiplier. */
  function GetFullConfig(): (c: Catalog)
    ensures |c.frameMaterials| == |FRAME_MATERIALS|
    ensures forall i :: 0 <= i < |FRAME_MATERIALS| ==>
      "price_multiplier" in c.frameMaterials[i] && c.frameMaterials[i]["price_multiplier"] == VNum(FRAME_MATERIALS[i].price)
  {
    Catalog(seq(|FRAME_MATERIALS|, i requires 0 <= i < |FRAME_MATERIALS| =>
      PricedRecord(FRAME_MATERIALS[i], "price_multiplier")), FRAME_COLORS, PIPELINE_STEPS)
  }
}
