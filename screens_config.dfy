/**
 * The security-screens vertical: pricing tables, the product schema, the
 * form choices and the five-step pipeline.
 */
module ScreensConfig {
  import opened Common
  import opened TenantBase

  /** Mesh types; `price` is the `price_per_sqft`. */
  const MESH_TYPES_PRICING: seq<Item> := [
    Item("10x10_standard", "10x10 Standard", 12.0),
    Item("12x12_standard", "12x12 Standard", 15.0),
    Item("12x12_american", "12x12 American", 18.0)
  ]

  /** Frame colors; `price` is the `price_add`. */
  const FRAME_COLORS_PRICING: seq<Item> := [
    Item("black", "Black", 0.0),
    Item("dark_bronze", "Dark Bronze", 200.0),
    Item("stucco", "Stucco", 150.0),
    Item("white", "White", 0.0),
    Item("almond", "Almond", 100.0)
  ]

  const INSTALLATION_BASE: real := 500.0
  const INSTALLATION_PER_SQFT: real := 5.0

  /** One select field of the product schema: its key and its (value, label) options. */
  datatype SchemaField = SchemaField(key: string, options: seq<Choice>)

  /** `get_product_schema`: mesh type, frame color and mesh color; no opacity field. */
  function ProductSchema(): (fields: seq<SchemaField>)
    ensures |fields| == 3
    ensures forall i :: 0 <= i < |fields| ==> fields[i].key != "opacity"
  {
    [
      SchemaField("mesh_type", [
        Choice("10x10_standard", "10x10 Standard"),
        Choice("12x12_standard", "12x12 Standard"),
        Choice("12x12_american", "12x12 American")]),
      SchemaField("frame_color", [
        Choice("black", "Black"),
        Choice("dark_bronze", "Dark Bronze"),
        Choice("stucco", "Stucco"),
        Choice("white", "White"),
        Choice("almond", "Almond")]),
      SchemaField("mesh_color", [
        Choice("black", "Black (Recommended)"),
        Choice("stucco", "Stucco"),
        Choice("bronze", "Bronze")])
    ]
  }

  /** The four choice getters; opacity has no choices for screens. */
  function GetChoices(): (c: Choices)
    ensures c.opacity == []
    ensures |c.mesh| == 3 && |c.frameColor| == 5 && |c.meshColor| == 3
  {
    Choices(
      [Choice("10x10_standard", "10x10 Standard"), Choice("12x12_standard", "12x12 Standard"),
       Choice("12x12_american", "12x12 American")],
      [Choice("black", "Black"), Choice("dark_bronze", "Dark Bronze"), Choice("stucco", "Stucco"),
       Choice("white", "White"), Choice("almond", "Almond")],
      [Choice("black", "Black (Recommended)"), Choice("stucco", "Stucco"), Choice("bronze", "Bronze")],
      [])
  }

  /**
   * The mesh, frame-color and mesh-color choice ids are the schema's option
   * values, in the same order, and the frame colors are the priced ones.
   */
  lemma ChoicesMatchSchema()
    ensures ChoiceIds(GetChoices().mesh) == ChoiceIds(ProductSchema()[0].options)
    ensures ChoiceIds(GetChoices().frameColor) == ChoiceIds(ProductSchema()[1].options)
    ensures ChoiceIds(GetChoices().meshColor) == ChoiceIds(ProductSchema()[2].options)
    ensures ChoiceIds(GetChoices().frameColor) == ChoiceIds(ItemChoices(FRAME_COLORS_PRICING))
    ensures ChoiceIds(GetChoices().mesh) == ChoiceIds(ItemChoices(MESH_TYPES_PRICING))
  {
  }

  const PIPELINE_STEPS: seq<string> := ["cleanup", "doors", "windows", "patio", "quality_check"]

  const STEP_CONFIGS: map<string, StepConfig> := map[
    "cleanup" := CleanupStep(30, "Cleaning"),
    "patio" := InsertionStep(Some("patio"), "patio enclosure", 50, "Building Patio"),
    "windows" := InsertionStep(Some("windows"), "windows", 60, "Building Windows"),
    "doors" := InsertionStep(Some("doors"), "entry doors", 70, "Building Doors"),
    "quality_check" := QualityCheckStep(90, "Checking Quality")
  ]

  /**
   * `get_step_config`: every listed step has a well-formed descriptor and any
   * other name gives the empty one.
   */
  function StepConfigOf(name: string): (c: StepConfig)
    ensures name in PIPELINE_STEPS ==> WellFormedStep(c)
    ensures name !in PIPELINE_STEPS ==> c == NoConfig
  {
    if name in STEP_CONFIGS then STEP_CONFIGS[name] else NoConfig
  }

  lemma PipelineWellFormed()
    ensures WellFormedPipeline(PIPELINE_STEPS, StepConfigOf)
  {
    assert Distinct(PIPELINE_STEPS);
  }

  /** Doors, windows and patio are gated on same-named keys, with their feature names. */
  lemma StepGating()
    ensures StepConfigOf("doors").scopeKey == Some("doors") && StepConfigOf("doors").featureName == Some("entry doors")
    ensures StepConfigOf("windows").scopeKey == Some("windows") && StepConfigOf("windows").featureName == Some("windows")
    ensures StepConfigOf("patio").scopeKey == Some("patio") && StepConfigOf("patio").featureName == Some("patio enclosure")
  {
  }

  /**
   * The weights in pipeline order are 30, 70, 60, 50, 90: they are not
   * increasing, so the progress they report goes back and forth.
   */
  lemma StepWeights()
    ensures Weights(PIPELINE_STEPS, StepConfigOf) == [30, 70, 60, 50, 90]
    ensures Weights(PIPELINE_STEPS, StepConfigOf)[1] > Weights(PIPELINE_STEPS, StepConfigOf)[2]
  {
    assert Weights(PIPELINE_STEPS, StepConfigOf) == [30, 70, 60, 50, 90];
  }
}
