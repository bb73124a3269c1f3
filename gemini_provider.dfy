/**
 * The Gemini provider (`GeminiProvider`) and its image-generation service:
 * which service types it creates, how the style preferences become the
 * pipeline's options and scope, and how the pipeline's outcome becomes a
 * service result.
 */
module GeminiProvider {
  import opened Common
  import X = Executor
  import opened AiInterfaces
  import TenantBase
  import PoolsPrompts

  /** `get_available_services`. */
  const AVAILABLE_SERVICES: seq<ServiceType> := [ImageGeneration, ImageEnhancement]

  /** The message `ScreenVisualizer` raises when it is built without any API key. */
  const MISSING_KEY := "API Key missing. Please set GOOGLE_API_KEY."

  /**
   * `create_service`: generation and enhancement both give the generation
   * service, any other type raises ValueError. Building the service builds a
   * `ScreenVisualizer`, which raises when neither the config's key nor the
   * environment's `GOOGLE_API_KEY` is set.
   */
  function CreateService(t: ServiceType, config: ServiceConfig, envKey: Option<string>): (r: Result<Service, string>)
    ensures t == ComputerVision ==> r == Err("Unsupported service type: " + TypeValue(t))
    ensures t != ComputerVision ==>
      (r.Ok? <==> Truthy(config.apiKey) || (envKey.Some? && envKey.value != ""))
    ensures r.Ok? ==> r.value == Service(ImageGeneration, config) && t in AVAILABLE_SERVICES
  {
    if t == ComputerVision then Err("Unsupported service type: " + TypeValue(t))
    else if !Truthy(config.apiKey) && !(envKey.Some? && envKey.value != "") then Err(MISSING_KEY)
    else
      assert t == AVAILABLE_SERVICES[0] || t == AVAILABLE_SERVICES[1];
      Ok(Service(ImageGeneration, config))
  }

  /** The provider as registered under 'gemini'. */
  function Gemini(id: nat, envKey: Option<string>): Provider
  {
    Provider(id, Some(AVAILABLE_SERVICES), (t, c) => CreateService(t, c, envKey))
  }

  /**
   * The `style_preferences` dict, one field per key it may hold (`None`
   * when the key is absent). The scope, when present, is a dict.
   */
  datatype StylePreferences = StylePreferences(
    opacity: Option<Val>,
    color: Option<Val>,
    meshType: Option<Val>,
    scope: Option<Dict>,
    tenantId: Option<Val>)

  /** `bool(style_preferences)`: a dict is truthy when it holds some key. */
  predicate PrefsTruthy(prefs: Option<StylePreferences>)
  {
    prefs.Some? &&
    (prefs.value.opacity.Some? || prefs.value.color.Some? || prefs.value.meshType.Some? ||
     prefs.value.scope.Some? || prefs.value.tenantId.Some?)
  }

  function ValOr(v: Option<Val>, dflt: Val): Val
  {
    if v.Some? then v.value else dflt
  }

  /**
   * The pipeline options: the color falls back to "Black" when missing or
   * falsy, the mesh type to "12x12" only when the key is missing, and the
   * opacity to "95" when missing or falsy.
   */
  function DeriveOptions(prefs: Option<StylePreferences>): (options: Dict)
    ensures options.Keys == {"color", "mesh_type", "opacity"}
    ensures Truthy(options["color"]) && Truthy(options["opacity"])
    ensures !PrefsTruthy(prefs) ==>
      options == map["color" := VStr("Black"), "mesh_type" := VStr("12x12"), "opacity" := VStr("95")]
    ensures PrefsTruthy(prefs) ==>
      && options["mesh_type"] == ValOr(prefs.value.meshType, VStr("12x12"))
      && (Truthy(ValOr(prefs.value.color, VNone)) ==> options["color"] == prefs.value.color.value)
      && (Truthy(ValOr(prefs.value.opacity, VNone)) ==> options["opacity"] == prefs.value.opacity.value)
  {
    var truthy := PrefsTruthy(prefs);
    var opacity := if truthy then ValOr(prefs.value.opacity, VNone) else VNone;
    var color := if truthy then ValOr(prefs.value.color, VNone) else VNone;
    var meshType := if truthy then ValOr(prefs.value.meshType, VStr("12x12")) else VStr("12x12");
    map["color" := if Truthy(color) then color else VStr("Black"),
        "mesh_type" := meshType,
        "opacity" := if Truthy(opacity) then opacity else VStr("95")]
  }

  /**
   * The legacy scope inferred from the screen type: a flag per substring of
   * the lower-cased type, with windows forced on when none matches.
   */
  function InferScope(screenType: string): (scope: Dict)
    ensures scope.Keys == {"windows", "doors", "patio"}
    ensures Truthy(scope["windows"]) || Truthy(scope["doors"]) || Truthy(scope["patio"])
    ensures scope["doors"] == VBool(Contains(Lower(screenType), "door"))
    ensures scope["patio"] == VBool(Contains(Lower(screenType), "patio"))
    ensures scope["windows"] == VBool(Contains(Lower(screenType), "window") ||
      !(Contains(Lower(screenType), "door") || Contains(Lower(screenType), "patio")))
  {
    var lower := Lower(screenType);
    var windows := Contains(lower, "window");
    var doors := Contains(lower, "door");
    var patio := Contains(lower, "patio");
    map["windows" := VBool(windows || !(windows || doors || patio)),
        "doors" := VBool(doors), "patio" := VBool(patio)]
  }

  /**
   * The scope sent to the pipeline: the preferences' non-empty scope, else
   * the inferred one. With no preferences at all the lookup itself fails.
   */
  function ScopeFor(prefs: Option<StylePreferences>, screenType: string): (r: Result<Dict, PyError>)
    ensures prefs.None? <==> r.Err?
    ensures prefs.Some? && prefs.value.scope.Some? && prefs.value.scope.value != map[] ==>
      r == Ok(prefs.value.scope.value)
    ensures prefs.Some? && (prefs.value.scope.None? || prefs.value.scope.value == map[]) ==>
      r == Ok(InferScope(screenType))
  {
    if prefs.None? then Err(AttributeError("'NoneType' object has no attribute 'get'"))
    else
      var scope := OrEmpty(prefs.value.scope);
      if scope == map[] then Ok(InferScope(screenType)) else Ok(scope)
  }

  const UNEXPECTED_PREFIX := "Unexpected error: "

  /** The `TypeError` Python raises for the undeclared keyword argument. */
  const TENANT_KWARG_ERROR := "ScreenVisualizer.process_pipeline() got an unexpected keyword argument 'tenant_id'"

  /** A failed result with a message. */
  function Failure(message: string): ServiceResult
  {
    ServiceResult(false, Failed, message, map[])
  }

  /** A service result and the effects the pipeline had before it was produced. */
  datatype Generation = Generation(result: ServiceResult, events: seq<X.Event>)

  /**
   * `generate_screen_visualization` as written: the options and scope are
   * derived, then the pipeline is called with a `tenant_id` keyword that
   * `process_pipeline` does not declare, so the call raises TypeError before
   * any step runs and the generic branch reports it.
   */
  function GenerateAsWritten(prefs: Option<StylePreferences>, screenType: string): (g: Generation)
    ensures !g.result.success && g.result.status == Failed && g.events == []
    ensures StartsWith(g.result.message, UNEXPECTED_PREFIX)
    ensures prefs.Some? ==> g.result.message == UNEXPECTED_PREFIX + TENANT_KWARG_ERROR
  {
    var _ := DeriveOptions(prefs);
    match ScopeFor(prefs, screenType)
    case Err(e) =>
      X.PrefixOfConcat(UNEXPECTED_PREFIX, e.msg);
      Generation(Failure(UNEXPECTED_PREFIX + e.msg), [])
    case Ok(_) =>
      X.PrefixOfConcat(UNEXPECTED_PREFIX, TENANT_KWARG_ERROR);
      Generation(Failure(UNEXPECTED_PREFIX + TENANT_KWARG_ERROR), [])
  }

  /** The success metadata: both images as bytes, and the quality score and reason. */
  function SuccessMetadata(st: X.State): map<string, MetaVal>
  {
    map["generated_image_data" := Bytes(st.current), "clean_image_data" := Bytes(st.clean),
        "quality_score" := Plain(st.score), "quality_reason" := Plain(st.reason)]
  }

  /** The result a finished run maps to. */
  function ResultOf(run: X.Run): (r: ServiceResult)
    ensures r.success <==> run.error.None?
    ensures r.success ==> r.status == Completed && r.metadata == SuccessMetadata(run.state)
    ensures run.error.Some? && run.error.value.VisualizerError? ==> r == Failure(run.error.value.msg)
    ensures run.error.Some? && run.error.value.PromptError? ==>
      r == Failure(UNEXPECTED_PREFIX + run.error.value.error.msg)
  {
    match run.error
    case None => ServiceResult(true, Completed, "", SuccessMetadata(run.state))
    case Some(VisualizerError(m)) => Failure(m)
    case Some(PromptError(e)) => Failure(UNEXPECTED_PREFIX + e.msg)
  }

  /**
   * `generate_screen_visualization` with the call `process_pipeline`
   * accepts: the pipeline of the tenant `t` runs on the derived options and
   * scope. A `ScreenVisualizerError` becomes a failure with its message; any
   * other exception a failure with "Unexpected error: …".
   */
  function Generate(t: X.TenantView, original: X.Image, screenType: string, prefs: Option<StylePreferences>,
                    hasCallback: bool, backend: nat -> X.Response, parse: string -> X.Json): (g: Generation)
    ensures prefs.None? ==>
      !g.result.success && g.events == [] && StartsWith(g.result.message, UNEXPECTED_PREFIX)
    ensures prefs.Some? ==>
      var run := X.Pipeline(t, X.Request(original, ScopeFor(prefs, screenType).value, DeriveOptions(prefs), hasCallback),
                            backend, parse);
      g == Generation(ResultOf(run), run.state.events)
  {
    match ScopeFor(prefs, screenType)
    case Err(e) =>
      X.PrefixOfConcat(UNEXPECTED_PREFIX, e.msg);
      Generation(Failure(UNEXPECTED_PREFIX + e.msg), [])
    case Ok(scope) =>
      var run := X.Pipeline(t, X.Request(original, scope, DeriveOptions(prefs), hasCallback), backend, parse);
      Generation(ResultOf(run), run.state.events)
  }

  /**
   * As written the provider never runs the pipeline: whatever the tenant,
   * the images and the model's replies, its result is a failure, while the
   * corrected call succeeds whenever the pipeline does.
   */
  lemma TenantKeywordAlwaysFails(t: X.TenantView, original: X.Image, screenType: string, prefs: StylePreferences,
                                 backend: nat -> X.Response, parse: string -> X.Json)
    requires X.Pipeline(t, X.Request(original, ScopeFor(Some(prefs), screenType).value, DeriveOptions(Some(prefs)), true),
                        backend, parse).error.None?
    ensures Generate(t, original, screenType, Some(prefs), true, backend, parse).result.success
    ensures !GenerateAsWritten(Some(prefs), screenType).result.success
    ensures GenerateAsWritten(Some(prefs), screenType).result.message == UNEXPECTED_PREFIX + TENANT_KWARG_ERROR
  {
  }

  /** A concrete run that shows it: an empty step list succeeds under the corrected call only. */
  lemma TenantKeywordWitness()
    ensures var t := X.TenantView([], _ => TenantBase.NoConfig, X.PoolsPrompt(PoolsPrompts.Cleanup),
                                  (f, o) => Err(ValueError("")), s => Err(ValueError("")));
      var prefs := StylePreferences(None, None, None, None, Some(VStr("pools")));
      && Generate(t, X.Image(0), "window_fixed", Some(prefs), true, _ => X.Raised(""), _ => X.JsonDecodeError).result.success
      && !GenerateAsWritten(Some(prefs), "window_fixed").result.success
  {
  }
}
