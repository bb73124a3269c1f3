/**
 * The Boss security-screens prompt builders. They build the same sections as
 * the screens vertical, with a cleanup text that asks for a perfect
 * perspective and an install sentence that ends "Keep perspective exactly.";
 * the module defines no `get_insertion_prompt` and no reference prompt.
 */
module BossPrompts {
  import opened Common
  import opened ScreensPrompts

  const DEFINES_INSERTION_PROMPT := false
  const DEFINES_REFERENCE_INSERTION_PROMPT := false

  function CleanupPrompt(): (p: Prompt)
    ensures p == [CleanupText(true)]
  {
    [CleanupText(true)]
  }

  /** `get_screen_insertion_prompt`: the base sentence extended with `+=` by the patio sections. */
  method ScreenInsertionPrompt(featureType: Val, options: Dict) returns (r: Result<Prompt, PyError>)
    ensures r == InsertionSections(featureType, options, true)
  {
    var color := Get(options, "color", VStr("Black"));
    var meshType := Get(options, "mesh_type", VStr("Standard"));
    if !meshType.VStr? {
      return Err(AttributeError("object has no attribute 'lower'"));
    }
    var lowered := Lower(meshType.s);
    var opacity := SemiTransparent;
    if Contains(lowered, "privacy") {
      opacity := OpaqueSolid;
    } else if Contains(lowered, "standard") {
      opacity := SemiTransparent;
    } else if Contains(lowered, "solar") {
      opacity := TintedTransparency;
    }
    var prompt := [Install(color, featureType, opacity, true)];
    if featureType == VStr("patio enclosure") {
      prompt := prompt + [DimensionRequest];
      prompt := prompt + [Mullions];
      prompt := prompt + [PatioFocus];
      assert prompt == [Install(color, featureType, opacity, true)] + [DimensionRequest, Mullions, PatioFocus];
    } else {
      assert prompt == [Install(color, featureType, opacity, true)] + [];
    }
    assert OpacityOf(meshType) == Ok(opacity);
    return Ok(prompt);
  }

  /** `get_quality_check_prompt`: the same sections, under the same scope rules, as screens. */
  method QualityCheckPrompt(scope: Option<Dict>) returns (p: Prompt)
    ensures p == QualitySections(scope)
  {
    p := [QualityIntro];
    if scope.Some? && scope.value != map[] && Truthy(GetOpt(scope.value, "patio")) {
      p := p + [PatioContext];
    } else {
      p := p + [StandardContext];
    }
    if scope.Some? && scope.value != map[] && !Truthy(GetOpt(scope.value, "windows")) {
      p := p + [WindowsNegative];
    }
    p := p + [Rating];
  }

  /**
   * A Boss insertion prompt differs from the screens one only in its install
   * sentence's closing instruction: both raise together, and otherwise the
   * sections agree one for one.
   */
  lemma InsertionMatchesScreens(featureType: Val, options: Dict)
    ensures InsertionSections(featureType, options, true).Err? <==> InsertionSections(featureType, options, false).Err?
    ensures InsertionSections(featureType, options, true).Ok? ==>
      var b := InsertionSections(featureType, options, true).value;
      var s := InsertionSections(featureType, options, false).value;
      |b| == |s| && b[0] == s[0].(keepPerspective := true) && b[1..] == s[1..]
  {
  }
}
