/**
 * `AIEnhancedImageProcessor.process_image`: the fixed sequence of writes a
 * request goes through while its photo is visualized — processing, the
 * pipeline's progress reports, the saved results, the non-fatal audit and
 * report, and completion — and the single failure path every exception
 * takes.
 *
 * Image decoding, the factory's answer, the model, the audit's model and
 * the report generator are fields of an `Environment`; the clock is `now`.
 */
module EnhancedProcessor {
  import opened Common
  import X = Executor
  import opened RequestModel
  import AiInterfaces
  import GP = GeminiProvider
  import AuditService

  /** What the world answers during one run. */
  datatype Environment = Environment(
    original: Result<X.Image, string>,      // `Image.open` of the original photo, or its error
    serviceAvailable: bool,                  // the factory returned a generation service
    tenant: X.TenantView,                    // the tenant whose pipeline runs
    backend: nat -> X.Response,              // the image model
    parse: string -> X.Json,                 // `json.loads`
    auditKey: bool,                          // `AuditService()` finds an API key
    originalExists: bool,                    // the photo is on disk for the audit
    originalPath: string,
    auditBackend: nat -> X.Response,         // the audit's vision model
    pdfOk: bool,                             // the report generator succeeds
    providerAsWritten: bool)                 // the provider calls the pipeline as written, not as corrected

  const PROCESSING_ERROR := "Error in AI processing: "
  const NO_SERVICE := "Gemini service not available. Check API key."
  const GENERATION_FAILED := "Gemini generation failed: "

  /** The keys `_save_generated_image` drops from the metadata besides byte values. */
  const IMAGE_KEYS := {"generated_image_data", "clean_image_data"}

  /** A `GeneratedImage` record: the image, its filtered metadata and the variation name. */
  datatype GeneratedImage = GeneratedImage(image: X.Image, metadata: map<string, AiInterfaces.MetaVal>, variation: string)

  /**
   * The screen type sent to the model: taken from the lower-cased categories
   * when there are any (patio before door before anything else), else the
   * request's own.
   */
  /** Some category, lower-cased, is `word`. */
  predicate AnyCategoryIs(categories: seq<string>, word: string)
  {
    exists i :: 0 <= i < |categories| && Lower(categories[i]) == word
  }

  function DeriveScreenType(screenType: string, categories: seq<string>): (r: string)
    ensures categories == [] ==> r == screenType
    ensures categories != [] && AnyCategoryIs(categories, "patio") ==> r == "patio_enclosure"
    ensures categories != [] && !AnyCategoryIs(categories, "patio") && AnyCategoryIs(categories, "door") ==>
      r == "door_single"
    ensures categories != [] && !AnyCategoryIs(categories, "patio") && !AnyCategoryIs(categories, "door") ==>
      r == "window_fixed"
    ensures r in {screenType, "patio_enclosure", "door_single", "window_fixed"}
  {
    if categories == [] then screenType
    else if AnyCategoryIs(categories, "patio") then "patio_enclosure"
    else if AnyCategoryIs(categories, "door") then "door_single"
    else "window_fixed"
  }

  /** The style preferences the processor builds from the request's fields. */
  function PrefsOf(inputs: Inputs): GP.StylePreferences
  {
    GP.StylePreferences(
      Some(if inputs.opacity.Some? then VStr(inputs.opacity.value) else VNone),
      Some(VStr(inputs.frameColor)),
      Some(VStr(inputs.meshChoice)),
      Some(if inputs.scope != map[] then inputs.scope else map[]),
      Some(VStr(inputs.tenantId)))
  }

  /**
   * The request's scope reaches the pipeline only when it is non-empty;
   * otherwise `{}` is sent and the provider infers one from the screen type.
   */
  lemma ScopeForwarded(inputs: Inputs, screenType: string)
    ensures GP.ScopeFor(Some(PrefsOf(inputs)), screenType) ==
      Ok(if inputs.scope != map[] then inputs.scope else GP.InferScope(screenType))
  {
  }

  /**
   * The provider's answer for a request whose photo opened: the corrected
   * provider's, or the as-written one's when `env.providerAsWritten`.
   */
  function GenerationFor(inputs: Inputs, env: Environment, image: X.Image): GP.Generation
  {
    var screenType := DeriveScreenType(inputs.screenType, inputs.screenCategories);
    if env.providerAsWritten then GP.GenerateAsWritten(Some(PrefsOf(inputs)), screenType)
    else GP.Generate(env.tenant, image, screenType, Some(PrefsOf(inputs)), true, env.backend, env.parse)
  }

  /** `variation_name`. */
  function Variation(inputs: Inputs): string
  {
    Lower(DeriveScreenType(inputs.screenType, inputs.screenCategories)) + "_standard"
  }

  /**
   * The metadata `_save_generated_image` stores: every entry whose value is
   * not bytes and whose key is not one of the two image keys.
   */
  function FilterMetadata(metadata: map<string, AiInterfaces.MetaVal>): (kept: map<string, AiInterfaces.MetaVal>)
    ensures forall k :: k in kept <==> k in metadata && metadata[k].Plain? && k !in IMAGE_KEYS
    ensures forall k :: k in kept ==> kept[k] == metadata[k]
  {
    map k | k in metadata && metadata[k].Plain? && k !in IMAGE_KEYS :: metadata[k]
  }

  /** Of a successful generation's metadata, only the quality score and reason are stored. */
  lemma StoredMetadata(st: X.State)
    ensures FilterMetadata(GP.SuccessMetadata(st)) ==
      map["quality_score" := AiInterfaces.Plain(st.score), "quality_reason" := AiInterfaces.Plain(st.reason)]
  {
    var md := GP.SuccessMetadata(st);
    var kept := FilterMetadata(md);
    assert "quality_score" in kept && "quality_reason" in kept;
    assert kept.Keys == {"quality_score", "quality_reason"};
  }

  /** The percentages the progress reports among `events` write, clamped. */
  function ProgressTrace(events: seq<X.Event>): (trace: seq<int>)
    ensures |trace| <= |events|
    ensures forall k :: 0 <= k < |trace| ==> 0 <= trace[k] <= 100
  {
    if events == [] then []
    else (if events[0].Progress? then [Clamp(events[0].percent)] else []) + ProgressTrace(events[1..])
  }

  /** The status message after the progress reports among `events`: the last non-empty one. */
  function LastMessage(events: seq<X.Event>, current: string): string
  {
    if events == [] then current
    else LastMessage(events[1..], if events[0].Progress? && events[0].message != "" then events[0].message else current)
  }

  /** The progress after a trace of writes: the last value written, or `p0` when nothing was. */
  function LastWritten(p0: int, writes: seq<int>): int
  {
    if writes == [] then p0 else writes[|writes| - 1]
  }

  /** The report of one more event lands after the reports of the events before it. */
  lemma {:induction false} ProgressTraceSnoc(events: seq<X.Event>, e: X.Event)
    ensures ProgressTrace(events + [e]) == ProgressTrace(events) + (if e.Progress? then [Clamp(e.percent)] else [])
  {
    if events != [] {
      assert (events + [e])[1..] == events[1..] + [e];
      ProgressTraceSnoc(events[1..], e);
    } else {
      assert ([] + [e])[1..] == [];
    }
  }

  /** One more event's non-empty message replaces the message left by the events before it. */
  lemma {:induction false} LastMessageSnoc(events: seq<X.Event>, e: X.Event, current: string)
    ensures LastMessage(events + [e], current) ==
      if e.Progress? && e.message != "" then e.message else LastMessage(events, current)
  {
    if events != [] {
      assert (events + [e])[1..] == events[1..] + [e];
      LastMessageSnoc(events[1..], e,
        if events[0].Progress? && events[0].message != "" then events[0].message else current);
    } else {
      assert ([] + [e])[1..] == [];
    }
  }

  /** The pipeline's progress callback, replayed: `update_progress(percent, message)` per report. */
  method ApplyProgress(req: VisualizationRequest, events: seq<X.Event>, now: int)
    requires req.Valid() && req.status == Processing && req.startedAt.Some?
    modifies req
    ensures req.Valid()
    ensures req.progressTrace == old(req.progressTrace) + ProgressTrace(events)
    ensures req.statusMessage == LastMessage(events, old(req.statusMessage))
    ensures req.progress == LastWritten(old(req.progress), ProgressTrace(events))
    ensures req.status == Processing && req.startedAt == old(req.startedAt) && req.completedAt == old(req.completedAt)
    ensures req.errorMessage == old(req.errorMessage) && req.taskId == old(req.taskId)
    ensures req.inputs == old(req.inputs) && req.cleanImage == old(req.cleanImage)
    ensures req.hasPdf == old(req.hasPdf) && req.auditReport == old(req.auditReport)
  {
    var i := 0;
    while i < |events|
      invariant 0 <= i <= |events| && req.Valid()
      invariant req.progressTrace == old(req.progressTrace) + ProgressTrace(events[..i])
      invariant req.statusMessage == LastMessage(events[..i], old(req.statusMessage))
      invariant req.progress == LastWritten(old(req.progress), ProgressTrace(events[..i]))
      invariant req.status == Processing && req.startedAt == old(req.startedAt) && req.completedAt == old(req.completedAt)
      invariant req.errorMessage == old(req.errorMessage) && req.taskId == old(req.taskId)
      invariant req.inputs == old(req.inputs) && req.cleanImage == old(req.cleanImage)
      invariant req.hasPdf == old(req.hasPdf) && req.auditReport == old(req.auditReport)
    {
      assert events[..i + 1] == events[..i] + [events[i]];
      ProgressTraceSnoc(events[..i], events[i]);
      LastMessageSnoc(events[..i], events[i], old(req.statusMessage));
      if events[i].Progress? {
        req.UpdateProgress(events[i].percent, Some(events[i].message), now);
      }
      i := i + 1;
    }
    assert events[..i] == events;
  }

  /** The report `perform_audit` returns, or none when `AuditService()` or the audit raised `AuditServiceError`. */
  function AuditReturned(existing: Option<AuditService.AuditReport>, env: Environment): Option<AuditService.AuditReport>
  {
    if !env.auditKey then None
    else
      var a := AuditService.PerformAuditSpec(existing, env.originalExists, env.originalPath, env.auditBackend, env.parse);
      if a.report.Ok? then Some(a.report.value) else None
  }

  /** The report stored after the audit step: the one the audit returned, else the existing one. */
  function AuditAfter(existing: Option<AuditService.AuditReport>, env: Environment): Option<AuditService.AuditReport>
  {
    if AuditReturned(existing, env).Some? then AuditReturned(existing, env) else existing
  }

  /** Python's `len` accepts the value: a string, a list or a dict. */
  predicate HasLen(v: Val)
  {
    v.VStr? || v.VList? || v.VObj?
  }

  /** Python's name of the value's type; a JSON number without a fraction decodes to an `int`. */
  function TypeName(v: Val): string
  {
    match v
    case VNone => "NoneType"
    case VBool(_) => "bool"
    case VNum(r) => if r == r.Floor as real then "int" else "float"
    case VStr(_) => "str"
    case VList(_) => "list"
    case VObj(_) => "dict"
  }

  /** The `TypeError` of `len` on a value without a length. */
  function LenError(v: Val): string
  {
    "object of type '" + TypeName(v) + "' has no len()"
  }

  /**
   * The error the audit step lets escape: the log line after a returned
   * report takes the `len` of its vulnerabilities, and the `TypeError` for
   * a value without one is not an `AuditServiceError`.
   */
  function AuditCrash(existing: Option<AuditService.AuditReport>, env: Environment): (crash: Option<string>)
    ensures crash.Some? <==> AuditReturned(existing, env).Some? && !HasLen(AuditReturned(existing, env).value.vulnerabilities)
  {
    var returned := AuditReturned(existing, env);
    if returned.Some? && !HasLen(returned.value.vulnerabilities) then Some(LenError(returned.value.vulnerabilities))
    else None
  }

  /**
   * A fresh audit whose reply dict carries a vulnerabilities value without
   * a length escapes with that value's `TypeError`; one whose reply leaves
   * the key out takes the default list and does not.
   */
  lemma ReplyVulnerabilitiesDecideCrash(env: Environment, parts: seq<X.Part>, d: Dict)
    requires env.auditKey && env.originalExists
    requires env.auditBackend(0) == X.Returned(parts)
    requires AuditService.DecodeAudit(X.ResponseText(parts), env.parse) == X.JsonObject(d)
    ensures "vulnerabilities" in d && !HasLen(d["vulnerabilities"]) ==>
      AuditCrash(None, env) == Some(LenError(d["vulnerabilities"]))
    ensures "vulnerabilities" in d && HasLen(d["vulnerabilities"]) ==> AuditCrash(None, env).None?
    ensures "vulnerabilities" !in d ==> AuditCrash(None, env).None?
    ensures AuditAfter(None, env) == Some(AuditService.ReportFrom(d))
  {
    var a := AuditService.AttemptsFrom(env.auditBackend, 0);
    assert a.response == Ok(parts);
    assert AuditReturned(None, env) == Some(AuditService.ReportFrom(d));
  }

  /** The trace a successful run writes after the pipeline's reports. */
  const SUCCESS_TAIL := [90, 92, 96, 100]

  /** The trace a run writes after the pipeline's reports when the audit step's log line fails. */
  const CRASH_TAIL := [90, 92, 0]

  /**
   * The audit and report part of the success branch. An `AuditServiceError`
   * or a failing report leaves the request as it was; the `TypeError` of the
   * audit's log line is returned, before progress 96, for the caller's
   * failure path.
   */
  method AuditAndReport(req: VisualizationRequest, env: Environment, now: int) returns (crash: Option<string>)
    requires req.Valid() && req.status == Processing && req.startedAt.Some?
    modifies req
    ensures req.Valid()
    ensures crash == AuditCrash(old(req.auditReport), env)
    ensures req.progressTrace == old(req.progressTrace) + (if crash.None? then [92, 96] else [92])
    ensures req.status == Processing && req.startedAt == old(req.startedAt) && req.completedAt == old(req.completedAt)
    ensures req.errorMessage == old(req.errorMessage) && req.taskId == old(req.taskId) && req.inputs == old(req.inputs)
    ensures req.statusMessage == (if crash.None? then "Preparing your security report..." else "Analyzing image quality...")
    ensures req.cleanImage == old(req.cleanImage)
    ensures req.auditReport == AuditAfter(old(req.auditReport), env)
    ensures req.hasPdf == (old(req.hasPdf) || (crash.None? && env.pdfOk))
  {
    req.UpdateProgress(92, Some("Analyzing image quality..."), now);
    crash := None;
    if env.auditKey {
      var audit := AuditService.PerformAudit(req.auditReport, env.originalExists, env.originalPath,
                                             env.auditBackend, env.parse);
      if audit.report.Ok? {
        req.auditReport := Some(audit.report.value);
        var vulnerabilities := audit.report.value.vulnerabilities;
        if !HasLen(vulnerabilities) {
          return Some(LenError(vulnerabilities));
        }
      }
    }
    req.UpdateProgress(96, Some("Preparing your security report..."), now);
    if env.pdfOk {
      req.hasPdf := true;
    }
  }

  /**
   * A request completed from the successful generation `g`: the clean image
   * kept, the generated image saved under `variation` with its filtered
   * metadata, the audit report and the PDF flag as the non-fatal steps left
   * them, and the error message untouched.
   */
  ghost predicate Completed(req: VisualizationRequest, env: Environment, g: GP.Generation, variation: string,
                            audit0: Option<AuditService.AuditReport>, pdf0: bool, err0: string,
                            now: int, saved: seq<GeneratedImage>)
    reads req
  {
    && g.result.success && g.result.metadata.Keys >= IMAGE_KEYS
    && g.result.metadata["generated_image_data"].Bytes? && g.result.metadata["clean_image_data"].Bytes?
    && AuditCrash(audit0, env).None?
    && req.status == Complete && req.progress == 100 && req.completedAt == Some(now)
    && req.cleanImage == Some(g.result.metadata["clean_image_data"].image)
    && saved == [GeneratedImage(g.result.metadata["generated_image_data"].image,
                                FilterMetadata(g.result.metadata), variation)]
    && req.auditReport == AuditAfter(audit0, env)
    && req.hasPdf == (pdf0 || env.pdfOk)
    && req.errorMessage == err0
  }

  /**
   * A request failed by the audit step's log line after the successful
   * generation `g`: the clean image and the returned report kept, no report
   * generated, nothing returned, and the `TypeError` as the error.
   */
  ghost predicate FailedInAudit(req: VisualizationRequest, env: Environment, g: GP.Generation,
                                audit0: Option<AuditService.AuditReport>, pdf0: bool, saved: seq<GeneratedImage>)
    reads req
  {
    && g.result.success && g.result.metadata.Keys >= IMAGE_KEYS && g.result.metadata["clean_image_data"].Bytes?
    && AuditCrash(audit0, env).Some?
    && req.status == Failed && req.progress == 0 && saved == []
    && req.cleanImage == Some(g.result.metadata["clean_image_data"].image)
    && req.auditReport == AuditAfter(audit0, env)
    && req.hasPdf == pdf0
    && req.errorMessage == PROCESSING_ERROR + AuditCrash(audit0, env).value
  }

  /**
   * The success branch of `process_image`: the clean image and the generated
   * image are saved, the audit and the report are attempted, and the request
   * completes, unless the audit's log line raises, which fails it.
   */
  method FinishSuccess(req: VisualizationRequest, env: Environment, g: GP.Generation, variation: string, now: int)
    returns (saved: seq<GeneratedImage>)
    requires req.Valid() && req.status == Processing && req.startedAt.Some?
    requires g.result.success && g.result.metadata.Keys >= IMAGE_KEYS
    requires g.result.metadata["generated_image_data"].Bytes? && g.result.metadata["clean_image_data"].Bytes?
    modifies req
    ensures req.Valid()
    ensures req.progressTrace == old(req.progressTrace) +
      (if AuditCrash(old(req.auditReport), env).None? then SUCCESS_TAIL else CRASH_TAIL)
    ensures req.startedAt == old(req.startedAt) && req.taskId == old(req.taskId) && req.inputs == old(req.inputs)
    ensures AuditCrash(old(req.auditReport), env).None? ==>
      Completed(req, env, g, variation, old(req.auditReport), old(req.hasPdf), old(req.errorMessage), now, saved)
    ensures AuditCrash(old(req.auditReport), env).Some? ==>
      FailedInAudit(req, env, g, old(req.auditReport), old(req.hasPdf), saved)
  {
    req.UpdateProgress(90, Some("Saving results..."), now);
    req.cleanImage := Some(g.result.metadata["clean_image_data"].image);
    saved := [GeneratedImage(g.result.metadata["generated_image_data"].image, FilterMetadata(g.result.metadata), variation)];
    var crash := AuditAndReport(req, env, now);
    if crash.Some? {
      req.MarkAsFailed(Some(PROCESSING_ERROR + crash.value), now);
      return [];
    }
    req.MarkAsComplete(now);
  }

  /**
   * What `process_image` leaves once the provider answered `g`, given the
   * trace, audit report, PDF flag and error message the request had before:
   * a failed generation fails the request; a successful one completes it
   * with both images saved, unless the audit's log line fails it.
   */
  ghost predicate Settled(req: VisualizationRequest, env: Environment, g: GP.Generation, inputs: Inputs,
                          trace0: seq<int>, audit0: Option<AuditService.AuditReport>, pdf0: bool, err0: string,
                          now: int, saved: seq<GeneratedImage>)
    reads req
  {
    && req.progressTrace == trace0 + ProgressTrace(g.events) +
         (if !g.result.success then [0] else if AuditCrash(audit0, env).None? then SUCCESS_TAIL else CRASH_TAIL)
    && (!g.result.success ==>
          && req.status == Failed && saved == []
          && req.errorMessage == PROCESSING_ERROR + GENERATION_FAILED + g.result.message)
    && (g.result.success && AuditCrash(audit0, env).None? ==>
          Completed(req, env, g, Variation(inputs), audit0, pdf0, err0, now, saved))
    && (g.result.success && AuditCrash(audit0, env).Some? ==> FailedInAudit(req, env, g, audit0, pdf0, saved))
  }

  /** With the provider as written the generation fails with the unexpected-keyword error and reports nothing. */
  lemma AsWrittenGeneration(inputs: Inputs, env: Environment, image: X.Image)
    requires env.providerAsWritten
    ensures var g := GenerationFor(inputs, env, image);
      !g.result.success && g.events == [] && g.result.message == GP.UNEXPECTED_PREFIX + GP.TENANT_KWARG_ERROR
  {
  }

  /**
   * A generation that fails before the pipeline reports anything settles
   * the request failed with its message, nothing saved, and one write of 0
   * after the trace before it.
   */
  lemma EarlyFailureSettles(req: VisualizationRequest, env: Environment, g: GP.Generation, inputs: Inputs,
                            trace0: seq<int>, audit0: Option<AuditService.AuditReport>, pdf0: bool, err0: string,
                            now: int, saved: seq<GeneratedImage>)
    requires !g.result.success && g.events == []
    requires Settled(req, env, g, inputs, trace0, audit0, pdf0, err0, now, saved)
    ensures req.status == Failed && saved == []
    ensures req.errorMessage == PROCESSING_ERROR + GENERATION_FAILED + g.result.message
    ensures req.progressTrace == trace0 + [0]
  {
    assert ProgressTrace(g.events) == [];
  }

  /** A generation the success branch can save: when it succeeded, both images are there as bytes. */
  predicate Saveable(g: GP.Generation)
  {
    g.result.success ==>
      && g.result.metadata.Keys >= IMAGE_KEYS
      && g.result.metadata["generated_image_data"].Bytes? && g.result.metadata["clean_image_data"].Bytes?
  }

  /** Every answer of the provider, corrected or as written, is one the success branch can save. */
  lemma GenerationSaveable(inputs: Inputs, env: Environment, image: X.Image)
    ensures Saveable(GenerationFor(inputs, env, image))
  {
  }

  /** `process_image` once the photo opened and the service answered `g`: the progress replayed and what follows. */
  method Visualize(req: VisualizationRequest, env: Environment, g: GP.Generation, now: int) returns (saved: seq<GeneratedImage>)
    requires req.Valid() && req.status == Processing && req.startedAt.Some?
    requires Saveable(g)
    modifies req
    ensures req.Valid()
    ensures req.inputs == old(req.inputs) && req.startedAt == old(req.startedAt)
    ensures Settled(req, env, g, old(req.inputs), old(req.progressTrace),
                    old(req.auditReport), old(req.hasPdf), old(req.errorMessage), now, saved)
  {
    ApplyProgress(req, g.events, now);
    if !g.result.success {
      req.MarkAsFailed(Some(PROCESSING_ERROR + GENERATION_FAILED + g.result.message), now);
      return [];
    }
    saved := FinishSuccess(req, env, g, Variation(req.inputs), now);
  }

  /**
   * `process_image`. On success the request is complete with its clean
   * image, its audit report when the audit worked and its PDF when the
   * report generator did, and one generated image is returned. Otherwise,
   * whatever failed, the request is failed with "Error in AI processing: …"
   * and nothing is returned. With the provider as written, every request
   * whose photo opens fails with the provider's `TypeError`.
   */
  method ProcessImage(req: VisualizationRequest, env: Environment, now: int) returns (saved: seq<GeneratedImage>)
    requires req.Valid()
    modifies req
    ensures req.Valid()
    ensures req.inputs == old(req.inputs)
    ensures req.startedAt == Some(now)
    ensures env.original.Err? ==>
      && req.status == Failed && saved == []
      && req.errorMessage == PROCESSING_ERROR + env.original.error
      && req.progressTrace == old(req.progressTrace) + [0, 10, 0]
    ensures env.original.Ok? && !env.serviceAvailable ==>
      && req.status == Failed && saved == []
      && req.errorMessage == PROCESSING_ERROR + NO_SERVICE
      && req.progressTrace == old(req.progressTrace) + [0, 10, 0]
    ensures env.original.Ok? && env.serviceAvailable ==>
      Settled(req, env, GenerationFor(old(req.inputs), env, env.original.value), old(req.inputs),
              old(req.progressTrace) + [0, 10], old(req.auditReport), old(req.hasPdf), old(req.errorMessage), now, saved)
  {
    req.MarkAsProcessing(None, now);
    req.UpdateProgress(10, Some("Initializing Gemini AI..."), now);
    assert req.progressTrace == old(req.progressTrace) + [0, 10];
    if env.original.Err? {
      req.MarkAsFailed(Some(PROCESSING_ERROR + env.original.error), now);
      return [];
    }
    if !env.serviceAvailable {
      req.MarkAsFailed(Some(PROCESSING_ERROR + NO_SERVICE), now);
      return [];
    }
    var g := GenerationFor(req.inputs, env, env.original.value);
    GenerationSaveable(req.inputs, env, env.original.value);
    saved := Visualize(req, env, g, now);
  }

  /**
   * With the provider as written, `process_image` never completes a
   * request whose photo opened and whose service exists: the state it
   * settles in (the last postcondition of `ProcessImage`) is a failure with
   * the provider's unexpected-keyword error, nothing saved, and a single
   * write of 0 after the opening writes.
   */
  lemma AsWrittenProcessingFails(req: VisualizationRequest, env: Environment, image: X.Image, inputs: Inputs,
                                 trace0: seq<int>, audit0: Option<AuditService.AuditReport>, pdf0: bool, err0: string,
                                 now: int, saved: seq<GeneratedImage>)
    requires env.providerAsWritten
    requires Settled(req, env, GenerationFor(inputs, env, image), inputs, trace0, audit0, pdf0, err0, now, saved)
    ensures req.status == Failed && saved == []
    ensures req.errorMessage == PROCESSING_ERROR + GENERATION_FAILED + GP.UNEXPECTED_PREFIX + GP.TENANT_KWARG_ERROR
    ensures req.progressTrace == trace0 + [0]
  {
    AsWrittenGeneration(inputs, env, image);
    EarlyFailureSettles(req, env, GenerationFor(inputs, env, image), inputs, trace0, audit0, pdf0, err0, now, saved);
  }
}
