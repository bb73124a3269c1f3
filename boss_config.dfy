/**
 * The Boss security-screens tenant: form choices (with opacity levels) and
 * the same five-step pipeline as the screens vertical.
 */
module BossConfig {
  import opened Common
  import opened TenantBase

  /** The four choice getters; unlike screens, opacity offers 80, 95 and 99 percent. */
  function GetChoices(): (c: Choices)
    ensures ChoiceIds(c.opacity) == ["80", "95", "99"]
    ensures |c.mesh| == 3 && |c.frameColor| == 5 && |c.meshColor| == 3
  {
    Choices(
      [Choice("10x10", "10x10 Standard"), Choice("12x12", "12x12 Standard"),
       Choice("12x12_american", "12x12 American")],
      [Choice("Black", "Black"), Choice("Dark Bronze", "Dark Bronze"), Choice("Stucco", "Stucco"),
       Choice("White", "White"), Choice("Almond", "Almond")],
      [Choice("Black", "Black (Recommended)"), Choice("Stucco", "Stucco"), Choice("Bronze", "Bronze")],
      [Choice("80", "80%"), Choice("95", "95%"), Choice("99", "99%")])
  }

  const PIPELINE_STEPS: seq<string> := ["cleanup", "doors", "windows", "patio", "quality_check"]

  const STEP_CONFIGS: map<string, StepConfig> := map[
    "cleanup" := CleanupStep(30, "Cleaning"),
    "patio" := InsertionStep(Some("patio"), "patio enclosure", 50, "Building Patio"),
    "windows" := InsertionStep(Some("windows"), "windows", 60, "Building Windows"),
    "doors" := InsertionStep(Some("doors"), "entry doors", 70, "Building Doors"),
    "quality_check" := QualityCheckStep(90, "Checking Quality")
  ]

  /**
   * `get_step_config`: every listed step has a well-formed descriptor and any
   * other name gives the empty one.
   */
  function StepConfigOf(name: string): (c: StepConfig)
    ensures name in PIPELINE_STEPS ==> WellFormedStep(c)
    ensures name !in PIPELINE_STEPS ==> c == NoConfig
  {
    if name in STEP_CONFIGS then STEP_CONFIGS[name] else NoConfig
  }

  lemma PipelineWellFormed()
    ensures WellFormedPipeline(PIPELINE_STEPS, StepConfigOf)
  {
    assert Distinct(PIPELINE_STEPS);
  }

  /** Doors, windows and patio are gated on same-named keys; weights are 30, 70, 60, 50, 90. */
  lemma StepGating()
    ensures forall n :: n in ["doors", "windows", "patio"] ==> StepConfigOf(n).scopeKey == Some(n)
    ensures Weights(PIPELINE_STEPS, StepConfigOf) == [30, 70, 60, 50, 90]
  {
    assert Weights(PIPELINE_STEPS, StepConfigOf) == [30, 70, 60, 50, 90];
  }
}
