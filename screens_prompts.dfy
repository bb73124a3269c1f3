/**
 * The security-screens prompt builders. A prompt is the list of the
 * sections the builder appends, in order; each section's wording is opaque
 * but the values it interpolates are kept.
 */
module ScreensPrompts {
  import opened Common

  /** The visual opacity a mesh type is described with. */
  datatype Opacity = OpaqueSolid | SemiTransparent | TintedTransparency

  datatype Section =
    | CleanupText(perfectPerspective: bool)
    /** The base insertion sentence; `keepPerspective` marks the variant that ends "Keep perspective exactly." */
    | Install(color: Val, featureType: Val, opacity: Opacity, keepPerspective: bool)
    | DimensionRequest
    | Mullions
    | PatioFocus
    | QualityIntro
    | PatioContext
    | StandardContext
    | WindowsNegative
    | Rating
    | ReferenceInstall(featureType: Val, color: Val)

  type Prompt = seq<Section>

  function CleanupPrompt(): (p: Prompt)
    ensures p == [CleanupText(false)]
  {
    [CleanupText(false)]
  }

  /**
   * The opacity phrase for a mesh type: its lower-cased text is searched for
   * "privacy", then "standard", then "solar"; calling `.lower()` on a value
   * that is not a string raises AttributeError.
   */
  function OpacityOf(meshType: Val): Result<Opacity, PyError>
  {
    if !meshType.VStr? then Err(AttributeError("object has no attribute 'lower'"))
    else
      var m := Lower(meshType.s);
      if Contains(m, "privacy") then Ok(OpaqueSolid)
      else if Contains(m, "standard") then Ok(SemiTransparent)
      else if Contains(m, "solar") then Ok(TintedTransparency)
      else Ok(SemiTransparent)
  }

  /**
   * The sections of an insertion prompt: the install sentence with the
   * color (default 'Black') and the mesh's opacity (mesh type default
   * 'Standard'), then the three patio sections for the exact feature type
   * "patio enclosure".
   */
  function InsertionSections(featureType: Val, options: Dict, keepPerspective: bool): Result<Prompt, PyError>
  {
    match OpacityOf(Get(options, "mesh_type", VStr("Standard")))
    case Err(e) => Err(e)
    case Ok(opacity) =>
      Ok([Install(Get(options, "color", VStr("Black")), featureType, opacity, keepPerspective)]
        + (if featureType == VStr("patio enclosure") then [DimensionRequest, Mullions, PatioFocus] else []))
  }

  /**
   * `get_screen_insertion_prompt`: the base sentence, extended with `+=` by
   * the patio sections.
   */
  method ScreenInsertionPrompt(featureType: Val, options: Dict) returns (r: Result<Prompt, PyError>)
    ensures r == InsertionSections(featureType, options, false)
  {
    var color := Get(options, "color", VStr("Black"));
    var meshType := Get(options, "mesh_type", VStr("Standard"));
    if !meshType.VStr? {
      return Err(AttributeError("object has no attribute 'lower'"));
    }
    var lowered := Lower(meshType.s);
    var opacity := SemiTransparent;
    if Contains(lowered, "privacy") {
      opacity := OpaqueSolid;
    } else if Contains(lowered, "standard") {
      opacity := SemiTransparent;
    } else if Contains(lowered, "solar") {
      opacity := TintedTransparency;
    }
    var prompt := [Install(color, featureType, opacity, false)];
    if featureType == VStr("patio enclosure") {
      prompt := prompt + [DimensionRequest];
      prompt := prompt + [Mullions];
      prompt := prompt + [PatioFocus];
      assert prompt == [Install(color, featureType, opacity, false)] + [DimensionRequest, Mullions, PatioFocus];
    } else {
      assert prompt == [Install(color, featureType, opacity, false)] + [];
    }
    assert OpacityOf(meshType) == Ok(opacity);
    return Ok(prompt);
  }

  /** `get_insertion_prompt`, the registry's entry point, is the screen insertion prompt. */
  method InsertionPrompt(featureType: Val, options: Dict) returns (r: Result<Prompt, PyError>)
    ensures r == InsertionSections(featureType, options, false)
  {
    r := ScreenInsertionPrompt(featureType, options);
  }

  /**
   * Opacity precedence: a mesh type mentioning privacy is opaque whatever
   * else it mentions; solar gives a tint only when neither privacy nor
   * standard is mentioned; everything else is semi-transparent.
   */
  lemma OpacityPrecedence(s: string)
    ensures OpacityOf(VStr(s)).Ok?
    ensures OpacityOf(VStr(s)).value == OpaqueSolid <==> Contains(Lower(s), "privacy")
    ensures OpacityOf(VStr(s)).value == TintedTransparency <==>
      !Contains(Lower(s), "privacy") && !Contains(Lower(s), "standard") && Contains(Lower(s), "solar")
    ensures OpacityOf(VStr(s)).value == SemiTransparent <==>
      !Contains(Lower(s), "privacy") && (Contains(Lower(s), "standard") || !Contains(Lower(s), "solar"))
  {
  }

  /**
   * With no color and no mesh type in the options, the install sentence
   * says 'Black' and a semi-transparent mesh.
   */
  lemma InsertionDefaults(featureType: Val, keepPerspective: bool)
    ensures InsertionSections(featureType, map[], keepPerspective).Ok?
    ensures InsertionSections(featureType, map[], keepPerspective).value[0] ==
      Install(VStr("Black"), featureType, SemiTransparent, keepPerspective)
  {
    var m := Lower("Standard");
    assert m == "standard";
    ContainsTooLong(m[2..], "privacy");
    assert m[1..][1..] == m[2..];
    assert m[1..][0] == 't';
    assert !StartsWith(m[1..], "privacy");
    assert !StartsWith(m, "privacy");
    assert !Contains(m, "privacy");
    assert StartsWith(m, "standard");
  }

  /**
   * The insertion prompt raises iff the options carry a mesh type that is not
   * a string; otherwise it has the install sentence first, and the three
   * patio sections after it exactly when the feature type is the string
   * "patio enclosure" (not "Patio Enclosure", not "patio").
   */
  lemma InsertionShape(featureType: Val, options: Dict, keepPerspective: bool)
    ensures InsertionSections(featureType, options, keepPerspective).Err? <==>
      "mesh_type" in options && !options["mesh_type"].VStr?
    ensures InsertionSections(featureType, options, keepPerspective).Ok? ==>
      var p := InsertionSections(featureType, options, keepPerspective).value;
      && p[0].Install? && p[0].featureType == featureType && p[0].color == Get(options, "color", VStr("Black"))
      && (Mullions in p <==> featureType == VStr("patio enclosure"))
      && (DimensionRequest in p <==> featureType == VStr("patio enclosure"))
      && (PatioFocus in p <==> featureType == VStr("patio enclosure"))
      && |p| == (if featureType == VStr("patio enclosure") then 4 else 1)
  {
  }

  /** The scope argument is truthy: given, and a non-empty dict. */
  predicate ScopeTruthy(scope: Option<Dict>)
  {
    scope.Some? && scope.value != map[]
  }

  /**
   * The sections of the quality-check prompt: the intro, the patio context
   * when the scope is truthy with a truthy 'patio' (else the standard
   * context), the windows constraint when the scope is truthy and its
   * 'windows' is falsy, and the rating request.
   */
  function QualitySections(scope: Option<Dict>): Prompt
  {
    [QualityIntro]
      + [if ScopeTruthy(scope) && Truthy(GetOpt(scope.value, "patio")) then PatioContext else StandardContext]
      + (if ScopeTruthy(scope) && !Truthy(GetOpt(scope.value, "windows")) then [WindowsNegative] else [])
      + [Rating]
  }

  /** `get_quality_check_prompt`: the base text extended by three `+=` steps. */
  method QualityCheckPrompt(scope: Option<Dict>) returns (p: Prompt)
    ensures p == QualitySections(scope)
  {
    p := [QualityIntro];
    if scope.Some? && scope.value != map[] && Truthy(GetOpt(scope.value, "patio")) {
      p := p + [PatioContext];
    } else {
      p := p + [StandardContext];
    }
    if scope.Some? && scope.value != map[] && !Truthy(GetOpt(scope.value, "windows")) {
      p := p + [WindowsNegative];
    }
    p := p + [Rating];
  }

  /**
   * Exactly one context section: the patio one iff 'patio' is present and
   * truthy. The windows constraint appears iff the scope is a non-empty dict
   * whose 'windows' is missing or falsy, so a `None` or empty scope adds none.
   */
  lemma QualitySectionsSpec(scope: Option<Dict>)
    ensures PatioContext in QualitySections(scope) <==>
      scope.Some? && "patio" in scope.value && Truthy(scope.value["patio"])
    ensures StandardContext in QualitySections(scope) <==> PatioContext !in QualitySections(scope)
    ensures WindowsNegative in QualitySections(scope) <==>
      scope.Some? && scope.value != map[] && ("windows" !in scope.value || !Truthy(scope.value["windows"]))
    ensures QualitySections(scope)[0] == QualityIntro
    ensures QualitySections(scope)[|QualitySections(scope)| - 1] == Rating
  {
    var p := QualitySections(scope);
    if scope.Some? && "patio" in scope.value {
      assert scope.value != map[] by { assert "patio" in scope.value; }
    }
    assert p[1] == PatioContext || p[1] == StandardContext;
  }

  /** The color of a reference insertion: 'color', else 'mesh_color', else 'Black'. */
  function ReferenceColor(options: Dict): (c: Val)
    ensures "color" in options ==> c == options["color"]
    ensures "color" !in options && "mesh_color" in options ==> c == options["mesh_color"]
    ensures "color" !in options && "mesh_color" !in options ==> c == VStr("Black")
  {
    Get(options, "color", Get(options, "mesh_color", VStr("Black")))
  }

  /** `get_reference_insertion_prompt`. */
  function ReferenceInsertionPrompt(featureType: Val, options: Dict): (p: Prompt)
    ensures p == [ReferenceInstall(featureType, ReferenceColor(options))]
  {
    [ReferenceInstall(featureType, ReferenceColor(options))]
  }
}
