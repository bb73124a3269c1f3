/**
 * The roofs and solar vertical: catalog tables, the five-step pipeline and
 * the public configuration without per-square-foot prices.
 */
module RoofsConfig {
  import opened Common
  import opened TenantBase

  /** Roof materials; `price` is the `price_per_sqft`. */
  const ROOF_MATERIALS: seq<Item> := [
    Item("asphalt_3tab", "Asphalt - 3-Tab", 3.50),
    Item("asphalt_architectural", "Asphalt - Architectural", 4.75),
    Item("metal_standing_seam", "Metal - Standing Seam", 9.50),
    Item("metal_corrugated", "Metal - Corrugated", 6.50),
    Item("clay_tile", "Clay Tile", 15.00),
    Item("concrete_tile", "Concrete Tile", 10.50),
    Item("slate", "Natural Slate", 22.00),
    Item("wood_shake", "Wood Shake", 12.50),
    Item("tpo_flat", "TPO (Flat Roof)", 5.50)
  ]

  const ROOF_COLORS: seq<Item> := [
    Item("charcoal", "Charcoal", 0.0),
    Item("black", "Black", 0.0),
    Item("brown", "Brown", 0.0),
    Item("tan", "Tan", 0.0),
    Item("terracotta", "Terracotta", 0.0),
    Item("slate_gray", "Slate Gray", 0.0),
    Item("weathered_wood", "Weathered Wood", 0.0),
    Item("green", "Forest Green", 0.0),
    Item("blue", "Colonial Blue", 0.0),
    Item("white", "White", 0.0)
  ]

  const SOLAR_OPTIONS: seq<Item> := [
    Item("none", "No Solar", 0.0),
    Item("partial", "Partial Coverage", 0.0),
    Item("full_south", "Full South Roof", 0.0),
    Item("full_all", "Maximum Coverage", 0.0)
  ]

  const GUTTER_OPTIONS: seq<Item> := [
    Item("none", "No Gutters", 0.0),
    Item("standard", "Standard Gutters", 0.0),
    Item("seamless", "Seamless Gutters", 0.0),
    Item("copper", "Copper Gutters", 0.0)
  ]

  const PIPELINE_STEPS: seq<string> :=
    ["cleanup", "roof_material", "solar_panels", "gutters_trim", "quality_check"]

  const STEP_CONFIGS: map<string, StepConfig> := map[
    "cleanup" := CleanupStep(15, "Preparing image"),
    "roof_material" := InsertionStep(None, "roof", 45, "Installing roofing material"),
    "solar_panels" := InsertionStep(Some("solar_option"), "solar", 20, "Adding solar panels"),
    "gutters_trim" := InsertionStep(Some("gutter_option"), "gutters", 15, "Installing gutters"),
    "quality_check" := QualityCheckStep(5, "Quality check")
  ]

  /**
   * `get_step_config`: every listed step has a well-formed descriptor and any
   * other name gives the empty one.
   */
  function StepConfigOf(name: string): (c: StepConfig)
    ensures name in PIPELINE_STEPS ==> WellFormedStep(c)
    ensures name !in PIPELINE_STEPS ==> c == NoConfig
  {
    if name in STEP_CONFIGS then STEP_CONFIGS[name] else NoConfig
  }

  lemma PipelineWellFormed()
    ensures WellFormedPipeline(PIPELINE_STEPS, StepConfigOf)
  {
    assert Distinct(PIPELINE_STEPS);
  }

  /**
   * The roof material always runs; solar panels and gutters are gated on the
   * option keys `solar_option` and `gutter_option`, not on same-named keys.
   */
  lemma StepGating()
    ensures StepConfigOf("roof_material").scopeKey == None
    ensures StepConfigOf("solar_panels").scopeKey == Some("solar_option")
    ensures StepConfigOf("gutters_trim").scopeKey == Some("gutter_option")
  {
  }

  /** The first step is the cleanup and the roof material is an insertion. */
  lemma StepKinds()
    ensures StepConfigOf("cleanup").stepType == Some("cleanup")
    ensures StepConfigOf("roof_material").stepType == Some("insertion")
  {
  }

  /** The weights in pipeline order are 15, 45, 20, 15, 5 and add up to 100. */
  lemma StepWeights()
    ensures Weights(PIPELINE_STEPS, StepConfigOf) == [15, 45, 20, 15, 5]
    ensures SumInt(Weights(PIPELINE_STEPS, StepConfigOf)) == 100
  {
    var ws := Weights(PIPELINE_STEPS, StepConfigOf);
    assert ws == [15, 45, 20, 15, 5];
    assert SumInt(ws) == 15 + SumInt([45, 20, 15, 5]);
    assert SumInt([45, 20, 15, 5]) == 45 + SumInt([20, 15, 5]);
    assert SumInt([20, 15, 5]) == 20 + SumInt([15, 5]);
    assert SumInt([15, 5]) == 15 + SumInt([5]);
  }

  /** Frame-color choices come from the roof colors; the others are empty. */
  function GetChoices(): (c: Choices)
    ensures |c.frameColor| == |ROOF_COLORS|
    ensures forall i :: 0 <= i < |ROOF_COLORS| ==>
      c.frameColor[i] == Choice(ROOF_COLORS[i].id, ROOF_COLORS[i].name)
    ensures c.mesh == [] && c.meshColor == [] && c.opacity == []
  {
    Choices([], ItemChoices(ROOF_COLORS), [], [])
  }

  /** The part of the configuration that differs between the two views. */
  datatype Catalog = Catalog(roofMaterials: seq<Dict>, pipelineSteps: seq<string>)

  /** `get_config`: the roof materials without `price_per_sqft`. */
  function GetConfig(): (c: Catalog)
    ensures |c.roofMaterials| == |ROOF_MATERIALS|
    ensures forall i :: 0 <= i < |ROOF_MATERIALS| ==>
      "price_per_sqft" !in c.roofMaterials[i] && c.roofMaterials[i] == PublicRecord(ROOF_MATERIALS[i])
    ensures c.pipelineSteps == PIPELINE_STEPS
  {
    Catalog(StripTable(ROOF_MATERIALS, "price_per_sqft"), PIPELINE_STEPS)
  }

  /** `get_full_config_with_pricing`: the roof materials keep `price_per_sqft`. */
  function GetFullConfig(): (c: Catalog)
    ensures |c.roofMaterials| == |ROOF_MATERIALS|
    ensures forall i :: 0 <= i < |ROOF_MATERIALS| ==>
      "price_per_sqft" in c.roofMaterials[i] && c.roofMaterials[i]["price_per_sqft"] == VNum(ROOF_MATERIALS[i].price)
  {
    Catalog(seq(|ROOF_MATERIALS|, i requires 0 <= i < |ROOF_MATERIALS| =>
      PricedRecord(ROOF_MATERIALS[i], "price_per_sqft")), PIPELINE_STEPS)
  }
}
