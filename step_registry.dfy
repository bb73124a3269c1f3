/**
 * The step-handler registry: a mutable table from step type to handler, the
 * four built-in handlers, and `execute_step`, which looks the handler up and
 * runs it. The handlers call the same image-edit and JSON clients as the
 * executor, so their effects are stated with the executor's functions.
 */
module StepRegistry {
  import opened Common
  import opened TenantBase
  import X = Executor
  import PoolsPrompts
  import ScreensPrompts
  import RoofsPrompts
  import WindowsPrompts

  /** A handler in the table: one of the four built-in ones or a custom one. */
  datatype Handler =
    | CleanupHandler
    | InsertionHandler
    | ReferenceInsertionHandler
    | QualityCheckHandler
    | CustomHandler(id: nat)

  /**
   * A tenant prompts module as the handlers see it: the entry points it
   * defines (`None` for a function the module lacks).
   */
  datatype PromptsModule = PromptsModule(
    cleanup: X.PromptToken,
    insertion: Option<(Val, Dict) -> Result<X.PromptToken, PyError>>,
    reference: Option<(Val, Dict) -> X.PromptToken>,
    quality: Option<Dict> -> Result<X.PromptToken, PyError>)

  /** The context dict: the current image, the optional keys, and the prompts module. */
  datatype Context = Context(
    image: X.Image,
    cleanImage: Option<X.Image>,
    scope: Option<Dict>,
    options: Option<Dict>,
    tenantId: Option<string>,
    prompts: PromptsModule)

  /**
   * What a handler may consult besides its arguments: the model oracle and the
   * next call number, JSON decoding, the reference-image store
   * (`get_reference_image(tenant, category, value)`), and what a custom
   * handler does.
   */
  datatype Env = Env(
    backend: nat -> X.Response,
    call: nat,
    parse: string -> X.Json,
    references: (string, string, Val) -> Option<X.Image>,
    custom: (nat, string) -> Outcome)

  /** A handler's result dict: an image (with the clean image after cleanup), or a score and reason. */
  datatype Output =
    | ImageOut(image: X.Image, clean: Option<X.Image>)
    | QualityOut(score: Val, reason: Val)

  /** The result or exception of a handler, the next call number and the events it caused. */
  datatype Outcome = Outcome(result: Result<Output, X.PipelineError>, next: nat, events: seq<X.Event>)

  /** The outcome of a step that raised before any model call. */
  function Raise(e: PyError, env: Env): Outcome
  {
    Outcome(Err(X.PromptError(e)), env.call, [])
  }

  /** The outcome of an image edit whose result is the handler's image. */
  function FromEdit(c: X.EditCall, isCleanup: bool): Outcome
  {
    match c.value
    case Err(msg) => Outcome(Err(X.VisualizerError(msg)), c.next, c.events)
    case Ok(img) => Outcome(Ok(ImageOut(img, if isCleanup then Some(img) else None)), c.next, c.events)
  }

  /** `cleanup_handler`: edits the context image with the cleanup prompt. */
  function Cleanup(ctx: Context, env: Env): Outcome
  {
    FromEdit(X.Edit(env.backend, env.call, ctx.image, ctx.prompts.cleanup), true)
  }

  /**
   * The skip rule of both insertion handlers: a truthy scope key whose value
   * in the scope (default `{}`) is falsy or missing. An empty key never skips.
   */
  predicate Skips(cfg: StepConfig, ctx: Context)
  {
    cfg.scopeKey.Some? && cfg.scopeKey.value != "" &&
    !Truthy(Get(OrEmpty(ctx.scope), cfg.scopeKey.value, VBool(false)))
  }

  /** `step_config.get('feature_name', step_name)`. */
  function FeatureName(name: string, cfg: StepConfig): Val
  {
    VStr(if cfg.featureName.Some? then cfg.featureName.value else name)
  }

  /** The text insertion once the prompt function is known to exist. */
  function TextInsertion(f: (Val, Dict) -> Result<X.PromptToken, PyError>, name: string, cfg: StepConfig,
                         ctx: Context, env: Env): Outcome
  {
    match f(FeatureName(name, cfg), OrEmpty(ctx.options))
    case Err(e) => Raise(e, env)
    case Ok(p) => FromEdit(X.Edit(env.backend, env.call, ctx.image, p), false)
  }

  const MISSING_INSERTION_PROMPT :=
    "Prompts module missing get_insertion_prompt(). Each tenant's prompts.py must implement this function."

  /** `insertion_handler`. */
  function Insertion(name: string, cfg: StepConfig, ctx: Context, env: Env): Outcome
  {
    if Skips(cfg, ctx) then Outcome(Ok(ImageOut(ctx.image, None)), env.call, [])
    else if ctx.prompts.insertion.None? then Raise(ValueError(MISSING_INSERTION_PROMPT), env)
    else TextInsertion(ctx.prompts.insertion.value, name, cfg, ctx, env)
  }

  /** The reference image a reference insertion looks up, if it looks one up at all. */
  function ReferenceImage(cfg: StepConfig, ctx: Context, env: Env): Option<X.Image>
  {
    var options := OrEmpty(ctx.options);
    if cfg.referenceCategory.Some? && cfg.referenceCategory.value != "" && cfg.referenceCategory.value in options then
      env.references(if ctx.tenantId.Some? then ctx.tenantId.value else "pools",
                     cfg.referenceCategory.value, options[cfg.referenceCategory.value])
    else None
  }

  /**
   * `reference_insertion_handler`. With a reference image it builds the
   * reference prompt (the module's own, else a generic text) and calls
   * `_call_gemini_edit_with_reference`, which the visualizer does not define,
   * so the prompt is never sent; without one it calls `get_insertion_prompt`
   * with no existence check.
   */
  function ReferenceInsertion(name: string, cfg: StepConfig, ctx: Context, env: Env): Outcome
  {
    if Skips(cfg, ctx) then Outcome(Ok(ImageOut(ctx.image, None)), env.call, [])
    else if ReferenceImage(cfg, ctx, env).Some? then
      Raise(AttributeError("'ScreenVisualizer' object has no attribute '_call_gemini_edit_with_reference'"), env)
    else if ctx.prompts.insertion.None? then
      Raise(AttributeError("module has no attribute 'get_insertion_prompt'"), env)
    else TextInsertion(ctx.prompts.insertion.value, name, cfg, ctx, env)
  }

  /** `quality_check_handler`: grades the clean image (else the current one) against the current one. */
  function QualityCheck(ctx: Context, env: Env): Outcome
  {
    var clean := if ctx.cleanImage.Some? then ctx.cleanImage.value else ctx.image;
    match ctx.prompts.quality(ctx.scope)
    case Err(e) => Raise(e, env)
    case Ok(p) =>
      var j := X.JsonFrom(env.backend, env.call, 0, [clean, ctx.image], p, env.parse);
      match j.reply
      case NotADict => Outcome(Err(X.PromptError(AttributeError("object has no attribute 'get'"))), j.next, j.events)
      case Reply(d) =>
        Outcome(Ok(QualityOut(Get(d, "score", VNum(0.95)), Get(d, "reason", VStr("AI quality check completed.")))),
          j.next, j.events)
  }

  /** Running a handler. */
  function Invoke(h: Handler, name: string, cfg: StepConfig, ctx: Context, env: Env): Outcome
  {
    match h
    case CleanupHandler => Cleanup(ctx, env)
    case InsertionHandler => Insertion(name, cfg, ctx, env)
    case ReferenceInsertionHandler => ReferenceInsertion(name, cfg, ctx, env)
    case QualityCheckHandler => QualityCheck(ctx, env)
    case CustomHandler(id) => env.custom(id, name)
  }

  /** The table at module load. */
  const DEFAULT_HANDLERS: map<string, Handler> := map[
    "cleanup" := CleanupHandler,
    "insertion" := InsertionHandler,
    "reference_insertion" := ReferenceInsertionHandler,
    "quality_check" := QualityCheckHandler]

  /**
   * `execute_step` against a table: `ValueError` for a descriptor without a
   * (non-empty) type or with a type the table lacks, else the handler's outcome.
   */
  function Dispatch(handlers: map<string, Handler>, name: string, cfg: StepConfig, ctx: Context, env: Env): Outcome
  {
    if cfg.stepType.None? || cfg.stepType.value == "" then
      Raise(ValueError("Step config missing 'type' for step: " + name), env)
    else if cfg.stepType.value !in handlers then
      Raise(ValueError("No handler registered for step type: " + cfg.stepType.value), env)
    else Invoke(handlers[cfg.stepType.value], name, cfg, ctx, env)
  }

  /** The module-level `STEP_HANDLERS` dict and the functions that read and write it. */
  class HandlerRegistry {
    var handlers: map<string, Handler>

    constructor()
      ensures handlers == DEFAULT_HANDLERS
    {
      handlers := DEFAULT_HANDLERS;
    }

    /** `get_handler`: the handler registered for the type, if any. */
    function GetHandler(stepType: string): (h: Option<Handler>)
      reads this
      ensures h.Some? <==> stepType in handlers
      ensures h.Some? ==> h.value == handlers[stepType]
    {
      if stepType in handlers then Some(handlers[stepType]) else None
    }

    /** `register_handler`: adds the type or replaces its handler. */
    method RegisterHandler(stepType: string, h: Handler)
      modifies this
      ensures handlers == old(handlers)[stepType := h]
    {
      handlers := handlers[stepType := h];
    }

    /** `execute_step`. */
    method ExecuteStep(name: string, cfg: StepConfig, ctx: Context, env: Env) returns (r: Outcome)
      ensures r == Dispatch(handlers, name, cfg, ctx, env)
    {
      var stepType := cfg.stepType;
      if stepType.None? || stepType.value == "" {
        return Raise(ValueError("Step config missing 'type' for step: " + name), env);
      }
      var handler := GetHandler(stepType.value);
      if handler.None? {
        return Raise(ValueError("No handler registered for step type: " + stepType.value), env);
      }
      r := Invoke(handler.value, name, cfg, ctx, env);
    }
  }

  // ---------------------------------------------------------------------
  // Properties

  /** The initial table maps exactly the four built-in step types. */
  lemma DefaultTable()
    ensures DEFAULT_HANDLERS.Keys == {"cleanup", "insertion", "reference_insertion", "quality_check"}
    ensures forall t :: t in StepTypes ==> t in DEFAULT_HANDLERS
  {
  }

  /**
   * `execute_step` raises ValueError, invoking no handler and calling no
   * model, exactly when the type is missing or empty or has no handler.
   */
  lemma DispatchErrors(handlers: map<string, Handler>, name: string, cfg: StepConfig, ctx: Context, env: Env)
    ensures (cfg.stepType.None? || cfg.stepType.value == "" || cfg.stepType.value !in handlers) ==>
      var r := Dispatch(handlers, name, cfg, ctx, env);
      r.result.Err? && r.result.error == X.PromptError(r.result.error.error) && r.result.error.error.ValueError? &&
      r.next == env.call && r.events == []
    ensures cfg.stepType.Some? && cfg.stepType.value != "" && cfg.stepType.value in handlers ==>
      Dispatch(handlers, name, cfg, ctx, env) == Invoke(handlers[cfg.stepType.value], name, cfg, ctx, env)
  {
  }

  /**
   * Registering a handler makes steps of that type run it and leaves steps
   * of every other type as they were.
   */
  lemma RegisterEffect(handlers: map<string, Handler>, t: string, h: Handler,
                       name: string, cfg: StepConfig, ctx: Context, env: Env)
    requires t != ""
    ensures cfg.stepType == Some(t) ==> Dispatch(handlers[t := h], name, cfg, ctx, env) == Invoke(h, name, cfg, ctx, env)
    ensures cfg.stepType != Some(t) ==> Dispatch(handlers[t := h], name, cfg, ctx, env) == Dispatch(handlers, name, cfg, ctx, env)
  {
  }

  /** Cleanup returns the same edited image as 'image' and as 'clean_image', and edits the context image. */
  lemma CleanupSameImage(ctx: Context, env: Env)
    ensures var r := Cleanup(ctx, env);
      r.result.Ok? ==> (r.result.value.ImageOut? && r.result.value.clean == Some(r.result.value.image))
    ensures X.SendsOnly(Cleanup(ctx, env).events, [ctx.image], ctx.prompts.cleanup)
  {
    X.EditFromSends(env.backend, env.call, 0, ctx.image, ctx.prompts.cleanup);
  }

  /**
   * Both insertion handlers return the context image unchanged, with no model
   * call, exactly when the skip rule holds.
   */
  lemma SkipRule(name: string, cfg: StepConfig, ctx: Context, env: Env)
    ensures Skips(cfg, ctx) ==> Insertion(name, cfg, ctx, env) == Outcome(Ok(ImageOut(ctx.image, None)), env.call, [])
    ensures Skips(cfg, ctx) ==> ReferenceInsertion(name, cfg, ctx, env) == Outcome(Ok(ImageOut(ctx.image, None)), env.call, [])
    ensures (!Skips(cfg, ctx) && ctx.prompts.insertion.Some? &&
             ctx.prompts.insertion.value(FeatureName(name, cfg), OrEmpty(ctx.options)).Ok?) ==>
      Insertion(name, cfg, ctx, env).next > env.call
  {
    if !Skips(cfg, ctx) && ctx.prompts.insertion.Some? {
      var p := ctx.prompts.insertion.value(FeatureName(name, cfg), OrEmpty(ctx.options));
      if p.Ok? {
        X.EditFromBounds(env.backend, env.call, 0, ctx.image, p.value);
      }
    }
  }

  /**
   * The registry's skip rule and the executor's differ on an empty scope key:
   * with `scope_key == ''` and an empty scope the executor skips the step and
   * the registry runs it.
   */
  lemma EmptyScopeKeyDiffers(cfg: StepConfig, ctx: Context)
    requires cfg.scopeKey == Some("") && ctx.scope == Some(map[])
    ensures !X.ShouldRun(cfg, map[])
    ensures !Skips(cfg, ctx)
  {
  }

  /** On non-empty keys the two skip rules agree. */
  lemma SkipRulesAgree(cfg: StepConfig, ctx: Context)
    requires cfg.scopeKey.None? || cfg.scopeKey.value != ""
    ensures Skips(cfg, ctx) <==> !X.ShouldRun(cfg, OrEmpty(ctx.scope))
  {
  }

  /**
   * The feature name defaults to the step name; a prompts module without
   * `get_insertion_prompt` makes a step that is not skipped raise ValueError.
   */
  lemma InsertionPromptLookup(name: string, cfg: StepConfig, ctx: Context, env: Env)
    ensures cfg.featureName.None? ==> FeatureName(name, cfg) == VStr(name)
    ensures cfg.featureName.Some? ==> FeatureName(name, cfg) == VStr(cfg.featureName.value)
    ensures !Skips(cfg, ctx) && ctx.prompts.insertion.None? ==>
      Insertion(name, cfg, ctx, env) == Outcome(Err(X.PromptError(ValueError(MISSING_INSERTION_PROMPT))), env.call, [])
  {
  }

  /**
   * A reference lookup happens only for a set category present in the
   * options; when none is found the handler takes exactly the plain
   * insertion path (but without its existence check on the prompt function).
   */
  lemma ReferenceFallsBack(name: string, cfg: StepConfig, ctx: Context, env: Env)
    ensures (cfg.referenceCategory.None? || cfg.referenceCategory.value == "" ||
             cfg.referenceCategory.value !in OrEmpty(ctx.options)) ==> ReferenceImage(cfg, ctx, env).None?
    ensures ReferenceImage(cfg, ctx, env).None? && ctx.prompts.insertion.Some? ==>
      ReferenceInsertion(name, cfg, ctx, env) == Insertion(name, cfg, ctx, env)
    ensures !Skips(cfg, ctx) && ReferenceImage(cfg, ctx, env).Some? ==>
      ReferenceInsertion(name, cfg, ctx, env).result.Err? && ReferenceInsertion(name, cfg, ctx, env).events == []
  {
  }

  /**
   * The quality handler grades against the context image when there is no
   * clean image, returns only a score and a reason, and defaults them to
   * 0.95 and 'AI quality check completed.'.
   */
  lemma QualityHandler(ctx: Context, env: Env)
    ensures var r := QualityCheck(ctx, env);
      r.result.Ok? ==> r.result.value.QualityOut?
    ensures ctx.prompts.quality(ctx.scope).Ok? ==>
      var clean := if ctx.cleanImage.Some? then ctx.cleanImage.value else ctx.image;
      X.SendsOnly(QualityCheck(ctx, env).events, [clean, ctx.image], ctx.prompts.quality(ctx.scope).value)
    ensures ctx.prompts.quality(ctx.scope).Ok? ==>
      var clean := if ctx.cleanImage.Some? then ctx.cleanImage.value else ctx.image;
      X.JsonFrom(env.backend, env.call, 0, [clean, ctx.image], ctx.prompts.quality(ctx.scope).value, env.parse).reply ==
        X.Reply(map[]) ==>
      QualityCheck(ctx, env).result == Ok(QualityOut(VNum(0.95), VStr("AI quality check completed.")))
  {
    if ctx.prompts.quality(ctx.scope).Ok? {
      var clean := if ctx.cleanImage.Some? then ctx.cleanImage.value else ctx.image;
      X.JsonFromSends(env.backend, env.call, 0, [clean, ctx.image], ctx.prompts.quality(ctx.scope).value, env.parse);
    }
  }

  // ---------------------------------------------------------------------
  // The tenants' prompts modules as the handlers see them

  function PoolsReference(featureType: Val, options: Dict): X.PromptToken
  {
    X.PoolsPrompt(PoolsPrompts.ReferenceInsertionPrompt(featureType, options))
  }

  function PoolsQuality(scope: Option<Dict>): Result<X.PromptToken, PyError>
  {
    Ok(X.PoolsPrompt(PoolsPrompts.QualityCheckPrompt(scope)))
  }

  /** Pools defines a reference prompt but no `get_insertion_prompt`. */
  function PoolsModule(): PromptsModule
  {
    PromptsModule(X.PoolsPrompt(PoolsPrompts.CleanupPrompt()), None, Some(PoolsReference), PoolsQuality)
  }

  function ScreensInsertion(featureType: Val, options: Dict): Result<X.PromptToken, PyError>
  {
    match ScreensPrompts.InsertionSections(featureType, options, false)
    case Ok(p) => Ok(X.ScreensPrompt(p))
    case Err(e) => Err(e)
  }

  function ScreensReference(featureType: Val, options: Dict): X.PromptToken
  {
    X.ScreensPrompt(ScreensPrompts.ReferenceInsertionPrompt(featureType, options))
  }

  function ScreensQuality(scope: Option<Dict>): Result<X.PromptToken, PyError>
  {
    Ok(X.ScreensPrompt(ScreensPrompts.QualitySections(scope)))
  }

  /** Screens is the only tenant whose module defines `get_insertion_prompt`. */
  function ScreensModule(): PromptsModule
  {
    PromptsModule(X.ScreensPrompt(ScreensPrompts.CleanupPrompt()), Some(ScreensInsertion), Some(ScreensReference),
      ScreensQuality)
  }

  /** Boss defines only the cleanup, screen-insertion and quality prompts. */
  function BossModule(): PromptsModule
  {
    PromptsModule(X.ScreensPrompt([ScreensPrompts.CleanupText(true)]), None, None, ScreensQuality)
  }

  function WindowsQuality(scope: Option<Dict>): Result<X.PromptToken, PyError>
  {
    Ok(X.WindowsPrompt(WindowsPrompts.QualityCheckPrompt(scope)))
  }

  /** Windows defines neither `get_insertion_prompt` nor a reference prompt. */
  function WindowsModule(): PromptsModule
  {
    PromptsModule(X.WindowsPrompt(WindowsPrompts.CleanupPrompt()), None, None, WindowsQuality)
  }

  /** Roofs' `get_quality_check_prompt()` accepts no scope argument. */
  function RoofsQuality(scope: Option<Dict>): Result<X.PromptToken, PyError>
  {
    if RoofsPrompts.QUALITY_CHECK_ARITY == 1 then Ok(X.RoofsPrompt(RoofsPrompts.QualityCheckPrompt()))
    else Err(TypeError("get_quality_check_prompt() takes 0 positional arguments but 1 was given"))
  }

  function RoofsModule(): PromptsModule
  {
    PromptsModule(X.RoofsPrompt(RoofsPrompts.CleanupPrompt()), None, None, RoofsQuality)
  }

  /**
   * Through the registry, an insertion step that is not skipped raises
   * ValueError for the Boss and pools modules, and runs for screens.
   */
  lemma InsertionByTenant(name: string, cfg: StepConfig, ctx: Context, env: Env)
    requires !Skips(cfg, ctx)
    ensures ctx.prompts == BossModule() ==> Insertion(name, cfg, ctx, env).result == Err(X.PromptError(ValueError(MISSING_INSERTION_PROMPT)))
    ensures ctx.prompts == PoolsModule() ==> Insertion(name, cfg, ctx, env).result == Err(X.PromptError(ValueError(MISSING_INSERTION_PROMPT)))
    ensures ctx.prompts == ScreensModule() && !("mesh_type" in OrEmpty(ctx.options) && !OrEmpty(ctx.options)["mesh_type"].VStr?) ==>
      Insertion(name, cfg, ctx, env).next > env.call
  {
    if ctx.prompts == ScreensModule() && !("mesh_type" in OrEmpty(ctx.options) && !OrEmpty(ctx.options)["mesh_type"].VStr?) {
      ScreensPrompts.InsertionShape(FeatureName(name, cfg), OrEmpty(ctx.options), false);
      SkipRule(name, cfg, ctx, env);
    }
  }
}
