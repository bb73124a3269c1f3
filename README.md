# Pool visualizer core, modelled in Dafny

This project models the core of a multi-tenant home-improvement visualizer. A
customer uploads a photo and picks options. The active tenant then drives a
fixed pipeline of AI image edits. The tenants are pools, windows, roofs, screens
and the "boss" screen catalog. The pipeline runs a cleanup step, then insertions
gated by the customer's scope, then a quality check. The result is audited,
recorded on the request, priced and turned into a PDF quote.

The model covers these parts:

- **Pipeline executor.** Modelled as a Dafny method over an oracle sequence of
  Gemini outcomes. It keeps the current and clean images, reports progress, and
  records the score and reason of the quality check. The model also covers the
  bounded "429" retry loop and the first-`{`-to-last-`}` JSON extraction with its
  default score.
- **Step-handler registry.** The handler map, registration, and the skip and
  fallback rules of the four handlers.
- **Tenant catalogs.** The constant step tables, choices, price stripping and
  prompt builders of the five tenants, plus the tenant registry with its
  active-tenant cache.
- **AI service layer.** The provider and service registry, the config manager,
  the factory, the Gemini provider adapter and the enhanced processor that
  drives a request through the pipeline.
- **Bookkeeping.** The audit service and the `VisualizationRequest` state
  transitions. The view guards (update, destroy, retry, regenerate, stats) and
  the serializer validators.
- **Runtime support.** The fixed-window rate limiter, the performance tracker,
  the TTL cache, the production monitor's metric and alert buffers and its
  health rules, and the append-if-absent prompt enhancers.
- **Pricing.** The Decimal calculators (as exact `real`s), the calculator
  registry, contractor price overrides, and the PDF quote and upgrade
  calculators. Every quote's line items sum to its total.
- **Frontend state.** The API client's retry policy, its active-request counter
  and 401 refresh flow; the auth store's lockout state machine; the
  visualization store's list operations, filters, scope and statistics.

Images, prompts and model replies are opaque tokens. `time.sleep`, `time.time` and
`Date.now` are parameters, or returned "wait" values. Python values that flow
through dictionaries are modelled by `Common.Val`, with Python's truthiness rules.
Python's `None`, raised exceptions and JavaScript rejections are modelled by
`Option` and `Result`.

Where the code and its documentation disagree, the model follows the code. These
places are marked in the table below and under "## Left out".

## Model

| member | source | states |
|---|---|---|
| Common.FindByIdSpec | api/utils/pdf_generator.py:237-242 | `next(entry with the selected id, fallback)` yields the first entry whose id is the selection when one exists, and the fallback exactly when none does |
| Common.FindByIdIn | api/utils/pdf_generator.py:291 | a catalog lookup with a fallback returns the fallback or an entry of the catalog, never anything else |
| Common.PyInt | api/utils/pdf_generator.py:244 | `int(x)` truncates toward zero: the result is within one of `x`, on the side of zero |
| Common.PyPositive | api/ai_services/config.py:223-230 | the comparison of a config limit with 0 succeeds exactly on numbers and booleans (a bool compares as 0 or 1) and raises for any other value |
| TenantBase.Weights | api/tenants/base.py:50-62 | one progress weight per listed step, in pipeline order: the descriptor's weight, or 0 where the optional key is absent |
| TenantBase.StripPrice | api/tenants/roofs/config.py:97 | removing the priced key from an entry's dict leaves exactly its public dict: the price is gone and id and name are kept |
| TenantBase.StripTable | api/tenants/pools/config.py:220-224 | the public catalog has one dict per entry, in order, each without the priced key and equal to that entry's public dict |
| TenantBase.ItemChoices | api/tenants/roofs/config.py:84 | the choice list has one `(id, name)` pair per catalog entry, in catalog order |
| TenantBase.LookupId | api/utils/pdf_generator.py:237 | a lookup with a fallback returns an entry of the catalog carrying the selected id when one is listed, and the fallback otherwise |
| StepRegistry.HandlerRegistry.constructor | api/services/pipeline_registry.py:210-215 | the registry starts with the four built-in handlers |
| StepRegistry.HandlerRegistry.GetHandler | api/services/pipeline_registry.py:218-220 | a handler is returned exactly when its type is registered, and it is the registered one |
| StepRegistry.HandlerRegistry.RegisterHandler | api/services/pipeline_registry.py:223-226 | registering adds the type or replaces its handler and leaves every other type's handler as it was |
| StepRegistry.HandlerRegistry.ExecuteStep | api/services/pipeline_registry.py:229-258 | executing a step through the registry object dispatches on its current table |
| StepRegistry.DefaultTable | api/services/pipeline_registry.py:210-215 | the built-in table maps exactly cleanup, insertion, reference_insertion and quality_check, and so covers every step type a tenant descriptor may name |
| StepRegistry.DispatchErrors | api/services/pipeline_registry.py:248-258 | ValueError, with no handler run and no model call, exactly when the type is missing, empty or unregistered; otherwise the registered handler runs |
| StepRegistry.RegisterEffect | api/services/pipeline_registry.py:223-226 | after registering a handler, steps of that type run it and steps of every other type behave as before |
| StepRegistry.CleanupSameImage | api/services/pipeline_registry.py:22-46 | cleanup sends only the context image with the cleanup prompt and returns the edited image both as `image` and as `clean_image` |
| StepRegistry.SkipRule | api/services/pipeline_registry.py:73-78 | both insertion handlers return the context image unchanged, with no model call, when the scope key is set and not enabled; otherwise a model call is made |
| StepRegistry.EmptyScopeKeyDiffers | api/services/pipeline_registry.py:76 | with an empty scope key and an empty scope the executor skips the step while the registry runs it |
| StepRegistry.SkipRulesAgree | api/services/pipeline_registry.py:173-175 | for any scope key that is absent or non-empty, the registry skips a step exactly when the executor does not run it |
| StepRegistry.InsertionPromptLookup | api/services/pipeline_registry.py:80-88 | the feature name defaults to the step name; a prompts module without an insertion prompt makes an unskipped step raise ValueError with no model call |
| StepRegistry.ReferenceFallsBack | api/services/pipeline_registry.py:177-203 | a reference is looked up only for a set category present in the options; without one the handler takes the plain insertion path; a found reference fails with no model call, because the visualizer defines no reference-editing call |
| StepRegistry.QualityHandler | api/services/pipeline_registry.py:96-133 | the quality handler sends the clean image (or the context image) and the current image with the quality prompt, and defaults score and reason to 0.95 and 'AI quality check completed.' |
| StepRegistry.InsertionByTenant | api/services/pipeline_registry.py:83-90 | through the registry an unskipped insertion step raises ValueError for the Boss and pools prompts modules and calls the model for screens |
| Executor.LastImageSpec | api/visualizer/services.py:147-158 | the image taken from a response is that of a part after which no part carries inline data, and there is none exactly when no part carries one |
| Executor.ScanForImage | api/visualizer/services.py:150-158 | the loop over the response parts ends holding the last inline image |
| Executor.CallGeminiEdit | api/visualizer/services.py:100-172 | the attempt loop plus the part scan compute exactly the specified edit outcome |
| Executor.EditAttempts | api/visualizer/services.py:122-136 | the loop stops at an attempt below four whose answer is not a retried "429"; the retries before it, plus the call from that attempt on, make up the whole edit call |
| Executor.EditRetries | api/visualizer/services.py:122-134 | after n rate-limited answers, the edit call is n request-and-sleep pairs, sleeping 10, 20, … seconds, followed by the call from attempt n |
| Executor.EditFromBounds | api/visualizer/services.py:122-137 | from attempt `k`, an edit makes at most 4 − k model calls, every one recorded, sleeps no more than the remaining back-off budget and reports no progress |
| Executor.EditFromSends | api/visualizer/services.py:125-128 | every attempt sends the same single image and the same prompt |
| Executor.NoRetry | api/visualizer/services.py:131-137 | an error without "429", and a response without an image, end the edit after that one call with "Gemini call failed: …" |
| Executor.EditBounds | api/visualizer/services.py:122-137 | a whole edit makes one to four model calls, sleeps at most 10 + 20 + 30 seconds and sends only the given image and prompt |
| Executor.EditSuccess | api/visualizer/services.py:164-165 | an edit succeeds only with the image of the last call's response, which carried one |
| Executor.EditFailure | api/visualizer/services.py:170-172 | every failure of an edit reads "Gemini call failed: <cause>" |
| Executor.FirstIndex | api/visualizer/services.py:241 | the first position of a character, or none when it does not occur |
| Executor.LastIndex | api/visualizer/services.py:241 | the last position of a character, or none when it does not occur |
| Executor.JsonSpan | api/visualizer/services.py:241-246 | the greedy DOTALL match of `\{.*\}` runs from the first '{' to the last '}', and exists exactly when some '}' follows the first '{' |
| Executor.CollectText | api/visualizer/services.py:232-236 | the collected text is the parts' texts in order |
| Executor.CallGeminiJson | api/visualizer/services.py:200-254 | the attempt loop, the text collection and the decoding compute exactly the specified JSON outcome |
| Executor.JsonAttempts | api/visualizer/services.py:215-229 | the loop stops at an attempt below three whose answer is not a retried "429"; the retries before it, plus the call from that attempt on, make up the whole JSON call |
| Executor.JsonRetries | api/visualizer/services.py:215-227 | after n rate-limited answers, the JSON call is n request-and-sleep pairs followed by the call from attempt n |
| Executor.JsonFromBounds | api/visualizer/services.py:215-229 | from attempt `k`, a JSON call makes at most 3 − k model calls, every one recorded, within the back-off budget and with no progress report |
| Executor.JsonFromSends | api/visualizer/services.py:213-223 | every attempt sends the same images followed by the same prompt |
| Executor.JsonBounds | api/visualizer/services.py:215-229 | a whole JSON call makes one to three model calls, sleeps at most 10 + 20 seconds and sends only the given images and prompt |
| Executor.JsonFallbacks | api/visualizer/services.py:238-254 | undecodable text gives score 0.9 with 'Failed to parse AI reasoning.'; the only failure left is a decoded value that is not an object |
| Executor.ExecuteStep | api/visualizer/services.py:58-92 | the loop body for one step computes exactly the specified step outcome |
| Executor.ProcessPipeline | api/visualizer/services.py:33-98 | the step loop returns the clean image, the final image, the score and the reason, or the exception that ended the run, with the events it caused |
| Executor.SkippedInsertion | api/visualizer/services.py:73-84 | an insertion step whose scope key is set and not truthy only reports its progress: no model call, same images |
| Executor.IgnoredStep | api/visualizer/services.py:66-92 | a step of any other type (reference_insertion, or the empty descriptor of an unknown name) only reports its progress |
| Executor.CleanupStep | api/visualizer/services.py:66-71 | cleanup edits the original image with the cleanup prompt, and on success the clean and the current image both become its result |
| Executor.QualityStep | api/visualizer/services.py:86-92 | the quality check changes neither image, sends the clean and the current image, and a reply without score or reason gives 0.95 and 'AI quality check completed.' |
| Executor.ReportIsProgress | api/visualizer/services.py:63-64 | a step's report is a progress report and makes no model call |
| Executor.StepEvents | api/visualizer/services.py:58-92 | a step keeps the earlier events as a prefix, adds its own progress report and at most four counted model calls |
| Executor.RunStepsCalls | api/visualizer/services.py:58-92 | running the steps only appends events; every call is counted, at most four per step |
| Executor.RunStepsProgress | api/visualizer/services.py:63-64 | a completed run reports exactly one progress value per step with a weight, the raw weight, in step order |
| Executor.PipelineProgress | api/visualizer/services.py:53-64 | a completed run reports (10, "Analyzing") and then each weighted step's raw weight; any run with a callback starts with (10, "Analyzing"); all calls are counted |
| Executor.NoCallbackNoProgress | api/visualizer/services.py:53-64 | without a callback there is never a progress report |
| Executor.CleanOnlyFromCleanup | api/visualizer/services.py:66-70 | only a cleanup step changes the clean image |
| Executor.NoCleanupKeepsOriginal | api/visualizer/services.py:47-48 | a tenant without a cleanup step grades against the original image |
| Executor.RoofsPipelineFails | api/tenants/roofs/prompts.py:1-119 | the roofs pipeline never completes: its roof-material step always runs and the roofs prompts have no `get_screen_insertion_prompt`, so a run ends with the cleanup error or AttributeError |
| Executor.RoofsNoneDoesNotSkip | api/tenants/roofs/config.py:67-68 | the solar and gutter steps gate on option keys whose value 'none' is a non-empty string, so they are not skipped |
| Executor.WindowsInsertionsAreFrames | api/tenants/windows/prompts.py:585-587 | for windows, every insertion step sends the window-frame prompt, whatever its feature |
| TenantRegistry.TenantId | api/tenants/pools/config.py:163 | every configuration's `tenant_id` is a non-empty string, so registering it gives a key an explicit lookup can name |
| TenantRegistry.Registry.constructor | api/tenants/__init__.py:87-91 | module load leaves the four auto-registered tenants and no cached tenant |
| TenantRegistry.Registry.RegisterTenant | api/tenants/__init__.py:29-32 | the configuration is stored under its id, replacing any previous one; the cache is untouched |
| TenantRegistry.Registry.GetTenantConfig | api/tenants/__init__.py:35-67 | the lookup's result and its effect on the cached tenant are those of the resolution function |
| TenantRegistry.Registry.GetTenantPrompts | api/tenants/__init__.py:70-73 | the prompts module of the configuration found, or the lookup's ValueError |
| TenantRegistry.Registry.GetAllTenants | api/tenants/__init__.py:76-78 | a copy of the whole table |
| TenantRegistry.Registry.ClearCache | api/tenants/__init__.py:81-84 | the cached tenant is forgotten and the table is unchanged |
| TenantRegistry.InitialTenants | api/tenants/__init__.py:87-91 | module load registers exactly pools, windows, roofs and screens, each under its own id, and not boss |
| TenantRegistry.RegisterKeepsOthers | api/tenants/__init__.py:29-32 | registration adds or replaces only the configuration's own id |
| TenantRegistry.ExplicitLookup | api/tenants/__init__.py:50-53 | an explicit id raises ValueError exactly when unregistered, else returns that tenant; the cache is untouched either way |
| TenantRegistry.DefaultLookup | api/tenants/__init__.py:55-67 | a defaulted lookup never raises: it returns the cache, else the configured tenant if registered, else pools, and caches it so later defaulted lookups agree |
| TenantRegistry.BossUnreachable | api/tenants/__init__.py:60-64 | at module load boss cannot be asked for by id, and an ACTIVE_TENANT of 'boss' resolves to pools |
| TenantRegistry.EmptyIdIsDefault | api/tenants/__init__.py:50 | an empty id behaves exactly as no id |
| PoolsConfig.StepConfigOf | api/tenants/pools/config.py:169-178 | every listed step has a well-formed descriptor and any other name gives the empty one |
| PoolsConfig.PipelineWellFormed | api/tenants/pools/config.py:154 | cleanup first, quality check last, no repeats, every step described and typed |
| PoolsConfig.StepGating | api/tenants/pools/config.py:172-175 | pool shell and deck always run; water features and finishing are gated on scope keys of the same names |
| PoolsConfig.StepWeights | api/tenants/pools/config.py:171-176 | the weights in pipeline order are 20, 30, 20, 15, 10, 5 and add up to 100 |
| PoolsConfig.GetChoices | api/tenants/pools/config.py:187-197 | pools offers no mesh, frame-color, mesh-color or opacity choices |
| PoolsConfig.DropPriceKeys | api/tenants/pools/config.py:218 | a key is kept exactly when its name does not contain 'price', with its value unchanged |
| PoolsConfig.PublicSizes | api/tenants/pools/config.py:205-208 | the sizes table in order, each entry without `base_price` and `gallons` |
| PoolsConfig.PublicBuiltIns | api/tenants/pools/config.py:217-220 | every built-in feature kept, each without the keys that mention 'price' |
| PoolsConfig.GetConfig | api/tenants/pools/config.py:200-234 | every public table keeps its entries in order with ids and names and carries no pricing field |
| PoolsConfig.GetFullConfig | api/tenants/pools/config.py:237-251 | the admin tables keep every pricing field |
| WindowsConfig.StepConfigOf | api/tenants/windows/config.py:320-330 | every listed step has a well-formed descriptor and any other name gives the empty one |
| WindowsConfig.PipelineWellFormed | api/tenants/windows/config.py:304 | the seven steps, doors and patio enclosure included, form a well-formed pipeline |
| WindowsConfig.StepGating | api/tenants/windows/config.py:321-329 | the window frame always runs; grilles/glass, trim, doors and patio enclosure are gated on scope keys of the same names |
| WindowsConfig.StepWeights | api/tenants/windows/config.py:321-329 | the weights in pipeline order are 15, 30, 15, 10, 15, 10, 5 and add up to 100 |
| WindowsConfig.GetChoices | api/tenants/windows/config.py:339-349 | frame-color choices are the frame colors' `(id, name)` pairs in order; the other three lists are empty |
| WindowsConfig.GetConfig | api/tenants/windows/config.py:352-376 | frame materials keep id and name and lose `price_multiplier`; colors and steps are passed through |
| WindowsConfig.GetFullConfig | api/tenants/windows/config.py:379-394 | frame materials keep their multiplier |
| RoofsConfig.StepConfigOf | api/tenants/roofs/config.py:63-71 | every listed step has a well-formed descriptor and any other name gives the empty one |
| RoofsConfig.PipelineWellFormed | api/tenants/roofs/config.py:50 | cleanup first, quality check last, no repeats, every step described |
| RoofsConfig.StepGating | api/tenants/roofs/config.py:66-68 | the roof material always runs; solar panels and gutters are gated on `solar_option` and `gutter_option` |
| RoofsConfig.StepKinds | api/tenants/roofs/config.py:65-66 | the cleanup step has the cleanup type and the roof-material step is an insertion |
| RoofsConfig.StepWeights | api/tenants/roofs/config.py:65-69 | the weights in pipeline order are 15, 45, 20, 15, 5 and add up to 100 |
| RoofsConfig.GetChoices | api/tenants/roofs/config.py:80-90 | frame-color choices are the roof colors' `(id, name)` pairs; the other three lists are empty |
| RoofsConfig.GetConfig | api/tenants/roofs/config.py:93-104 | roof materials keep id and name and lose `price_per_sqft` |
| RoofsConfig.GetFullConfig | api/tenants/roofs/config.py:107-116 | roof materials keep `price_per_sqft` |
| ScreensConfig.ProductSchema | api/tenants/screens/config.py:53-95 | three fields (mesh type, frame color, mesh color) and none of them is opacity |
| ScreensConfig.GetChoices | api/tenants/screens/config.py:97-125 | three mesh, five frame-color and three mesh-color choices, and no opacity choices |
| ScreensConfig.ChoicesMatchSchema | api/tenants/screens/config.py:53-125 | the choice ids equal the schema's option values in order, and frame colors and meshes match the priced tables |
| ScreensConfig.StepConfigOf | api/tenants/screens/config.py:135-169 | every listed step has a well-formed descriptor and any other name gives the empty one |
| ScreensConfig.PipelineWellFormed | api/tenants/screens/config.py:127-129 | cleanup first, quality check last, no repeats, every step described |
| ScreensConfig.StepGating | api/tenants/screens/config.py:143-159 | doors, windows and patio are gated on scope keys of the same names, with feature names 'entry doors', 'windows' and 'patio enclosure' |
| ScreensConfig.StepWeights | api/tenants/screens/config.py:136-168 | the weights in pipeline order are 30, 70, 60, 50, 90, so reported progress goes back and forth |
| BossConfig.GetChoices | api/tenants/boss/config.py:15-43 | opacity offers 80, 95 and 99 percent; three mesh, five frame-color and three mesh-color choices |
| BossConfig.StepConfigOf | api/tenants/boss/config.py:53-87 | every listed step has a well-formed descriptor and any other name gives the empty one |
| BossConfig.PipelineWellFormed | api/tenants/boss/config.py:45-47 | cleanup first, quality check last, no repeats, every step described |
| BossConfig.StepGating | api/tenants/boss/config.py:54-86 | doors, windows and patio are gated on scope keys of the same names; the weights are 30, 70, 60, 50, 90 |
| PoolsPrompts.SizeLookup | api/tenants/pools/prompts.py:51 | a known size id selects its own entry; a missing or unknown one falls back to the classic size |
| PoolsPrompts.ShapeLookup | api/tenants/pools/prompts.py:52 | a known shape id selects its own entry; otherwise the rectangle |
| PoolsPrompts.FinishLookup | api/tenants/pools/prompts.py:53 | a known finish id selects its own entry; otherwise Pebble Tec blue |
| PoolsPrompts.PoolShellPrompt | api/tenants/pools/prompts.py:49-110 | the ledge is listed iff its selection is truthy (default on), the spa iff truthy (default off), loungers iff the ledge is on and `lounger_count > 0`; that comparison raising TypeError is the only error; the looked-up size, shape and finish are used |
| PoolsPrompts.PoolShellDefaults | api/tenants/pools/prompts.py:49-63 | with no selections the shell is the classic rectangle in Pebble Tec blue with the ledge and two loungers |
| PoolsPrompts.DeckPrompt | api/tenants/pools/prompts.py:113-116 | a known material or color id selects its own entry; unknown or missing ones fall back to travertine and cream |
| PoolsPrompts.SelectInList | api/tenants/pools/prompts.py:156 | filtering by a list never raises and keeps exactly the catalog entries whose id is listed, in catalog order |
| PoolsPrompts.SelectInNotIterable | api/tenants/pools/prompts.py:156 | a selection that is not a list, a string or a dict raises TypeError once the catalog is non-empty |
| PoolsPrompts.WaterFeaturesPrompt | api/tenants/pools/prompts.py:149-159 | a falsy selection gives `None`; a prompt always lists at least one feature |
| PoolsPrompts.WaterFeaturesSpec | api/tenants/pools/prompts.py:149-159 | for a list of ids the prompt never raises, is `None` iff no listed id names a feature, and otherwise lists exactly the named features in catalog order |
| PoolsPrompts.FinishingPrompt | api/tenants/pools/prompts.py:191-216 | a prompt carries one to three non-empty hints |
| PoolsPrompts.FinishingLookup | api/tenants/pools/prompts.py:193-196 | a finishing lookup has a hint iff the selection names an entry after the first, empty-hint one |
| PoolsPrompts.FinishingSpec | api/tenants/pools/prompts.py:191-216 | the prompt is `None` iff none of lighting, landscaping and furniture names an option other than 'none' |
| PoolsPrompts.QualityCheckPrompt | api/tenants/pools/prompts.py:241-256 | the FEATURES section is always there without selections or without a `tanning_ledge` key; it is left out only when that key is falsy |
| PoolsPrompts.QualityFeatureChecks | api/tenants/pools/prompts.py:244-252 | the FEATURES section is left out iff water features, spa and an explicitly present tanning ledge are all falsy |
| PoolsPrompts.GetPrompt | api/tenants/pools/prompts.py:309-326 | an unknown step raises ValueError; cleanup, deck, finishing and quality check never raise |
| PoolsPrompts.ScreenInsertionIgnoresFeature | api/tenants/pools/prompts.py:330-332 | the feature type plays no part: every insertion renders the pool shell |
| PoolsPrompts.ReferenceInsertionPrompt | api/tenants/pools/prompts.py:335-344 | the product is shape and finish for 'pool', material and color for 'deck', and the feature type itself otherwise |
| WindowsPrompts.PickNone | api/tenants/windows/prompts.py:62-64 | a lookup falling back to a leading 'none' entry picks something else iff the selection names a listed id other than 'none' |
| WindowsPrompts.WindowFramePrompt | api/tenants/windows/prompts.py:54-123 | the window type falls back to double hung and the project to its first entry; the door section appears iff a listed door type other than 'none' is selected |
| WindowsPrompts.GrillesGlassPrompt | api/tenants/windows/prompts.py:126-148 | a prompt has one or two feature lines |
| WindowsPrompts.GrillesGlassSpec | api/tenants/windows/prompts.py:126-148 | `None` iff no grille other than 'none' is named and the glass is missing, unknown, clear or low-E; the grille line appears iff a grille is named; the second `None` test never fires |
| WindowsPrompts.TrimPrompt | api/tenants/windows/prompts.py:182-195 | `None` iff the trim style is missing, unknown or standard; otherwise it uses the selected frame color |
| WindowsPrompts.DoorsPrompt | api/tenants/windows/prompts.py:230-250 | a prompt iff a listed door type other than 'none' is selected, with the selected frame material and color |
| WindowsPrompts.PatioEnclosurePrompt | api/tenants/windows/prompts.py:335-359 | a prompt iff a listed enclosure other than 'none' is selected; unknown glass falls back to double pane |
| WindowsPrompts.OptionalStepsDefaultOff | api/tenants/windows/prompts.py:126-359 | with nothing selected the grilles/glass, trim, doors and enclosure prompts are all `None` |
| WindowsPrompts.QualityCheckPrompt | api/tenants/windows/prompts.py:469-490 | door checks appear iff the scope's 'doors' is truthy, enclosure checks iff its 'patio_enclosure' is |
| WindowsPrompts.GetPrompt | api/tenants/windows/prompts.py:561-581 | ValueError iff the step is not one of the seven; the quality check is built from the scope |
| WindowsPrompts.ScreenInsertionIgnoresFeature | api/tenants/windows/prompts.py:585-587 | the feature type plays no part: every insertion renders window frames |
| RoofsPrompts.RoofMaterialPrompt | api/tenants/roofs/prompts.py:16-33 | the prompt names the selected material and color hints, defaulting to architectural asphalt shingles and charcoal gray |
| RoofsPrompts.SolarPanelsPrompt | api/tenants/roofs/prompts.py:36-56 | `None` iff the solar option is missing or exactly 'none'; otherwise it carries the solar hint (default empty) |
| RoofsPrompts.GuttersTrimPrompt | api/tenants/roofs/prompts.py:59-78 | `None` iff the gutter option is missing or exactly 'none'; otherwise it carries the gutter hint |
| RoofsPrompts.GetPrompt | api/tenants/roofs/prompts.py:97-119 | the five steps dispatch to their builders; any other step yields `None` rather than an error |
| RoofsPrompts.UnknownStepLooksSkipped | api/tenants/roofs/prompts.py:112-119 | an unknown step and a skipped solar step both come back as `None`, so a caller cannot tell them apart |
| ScreensPrompts.CleanupPrompt | api/tenants/screens/prompts.py:9-16 | the screens cleanup text, without the Boss variant's wording |
| ScreensPrompts.ScreenInsertionPrompt | api/tenants/screens/prompts.py:19-52 | the base sentence extended with `+=` by the patio sections, as the section list specifies |
| ScreensPrompts.InsertionPrompt | api/tenants/screens/prompts.py:103-108 | the registry's entry point gives exactly the screen insertion prompt |
| ScreensPrompts.OpacityPrecedence | api/tenants/screens/prompts.py:31-40 | a mesh type mentioning privacy is opaque; solar gives a tint only when neither privacy nor standard is mentioned; anything else is semi-transparent |
| ScreensPrompts.InsertionDefaults | api/tenants/screens/prompts.py:28-29 | without color and mesh type the install sentence says 'Black' and semi-transparent |
| ScreensPrompts.InsertionShape | api/tenants/screens/prompts.py:19-52 | raises iff the mesh type is present and not a string; otherwise the install sentence comes first and the three patio sections follow iff the feature is 'patio enclosure' |
| ScreensPrompts.QualityCheckPrompt | api/tenants/screens/prompts.py:55-100 | the base text extended by three `+=` steps, as the section list specifies |
| ScreensPrompts.QualitySectionsSpec | api/tenants/screens/prompts.py:70-89 | exactly one context section, the patio one iff 'patio' is truthy; the windows constraint iff the scope is a non-empty dict whose 'windows' is missing or falsy; intro first, rating last |
| ScreensPrompts.ReferenceColor | api/tenants/screens/prompts.py:116 | the color is 'color', else 'mesh_color', else 'Black' |
| ScreensPrompts.ReferenceInsertionPrompt | api/tenants/screens/prompts.py:111-131 | one reference-install section with the feature and that color |
| BossPrompts.CleanupPrompt | api/tenants/boss/prompts.py:10-17 | the Boss cleanup text |
| BossPrompts.ScreenInsertionPrompt | api/tenants/boss/prompts.py:20-53 | the same sections as screens with the Boss install sentence |
| BossPrompts.QualityCheckPrompt | api/tenants/boss/prompts.py:56-101 | the same quality sections, under the same scope rules, as screens |
| BossPrompts.InsertionMatchesScreens | api/tenants/boss/prompts.py:20-53 | a Boss insertion prompt raises iff the screens one does, and otherwise differs only in the install sentence's closing instruction |
| AuditService.Take | api/audit/services.py:117 | `text[:n]` is the first `n` characters, or the whole text when it is shorter |
| AuditService.DecodeAudit | api/audit/services.py:104-118 | decoding a reply never raises a decode error: a failed decode becomes the fallback dict |
| AuditService.AuditFailed | api/audit/services.py:63-65 | the error message is "Audit failed: " followed by the cause |
| AuditService.PerformAuditSpec | api/audit/services.py:30-65 | an existing report is returned as is with no call; a missing file fails with no call; every failure reads "Audit failed: …" |
| AuditService.CallGeminiJson | api/audit/services.py:67-122 | the request loop, the text collection and the decoding compute exactly the specified attempts and reply |
| AuditService.PerformAudit | api/audit/services.py:30-65 | the method computes exactly the specified audit outcome |
| AuditService.AttemptsBounds | api/audit/services.py:81-94 | from attempt `k`, at most 3 − k calls, one more than the waits; the i-th wait is 2·(k+i+1) seconds and follows a "429" error; the waits stay within the budget |
| AuditService.AuditCallBounds | api/audit/services.py:78-94 | a whole audit call makes at most three attempts and waits at most 6 seconds |
| AuditService.NoRetryWithout429 | api/audit/services.py:89-94 | an error without "429" ends the loop at once: one attempt, no wait |
| AuditService.UndecodableReply | api/audit/services.py:112-118 | an undecodable reply still yields a report with no ground-level access, default flags and list, and a summary quoting at most the first 100 characters of the text |
| AuditService.NotPromptKey | api/audit/prompts.py:25-39 | no key of the length of a key the audit reads is among the keys the prompt asks for |
| AuditService.PromptKeysIgnored | api/audit/services.py:52-59 | a reply holding only the keys the prompt asks for yields the all-default report, since none of them is read |
| RequestModel.Clamp | api/models.py:433 | `min(100, max(0, p))` lies in 0..100, is `p` inside that range and the nearer bound outside it |
| RequestModel.StartAfterClean | api/models.py:386-390 | a processing request gets a start time if it has none; an existing one is never overwritten |
| RequestModel.CompletionAfterClean | api/models.py:391-392 | a complete request gets a completion time if it has none; an existing one is never overwritten |
| RequestModel.FailedMessage | api/models.py:452-454 | the status message is "Failed: " + error, cut to 497 characters plus "..." when longer than 500, so it always fits in 500 |
| RequestModel.ShortFailureKept | api/models.py:453-454 | an error short enough is quoted in full after "Failed: " |
| RequestModel.VisualizationRequest.constructor | api/models.py:314-347 | a new request is pending at 0% with empty messages and no timestamps |
| RequestModel.VisualizationRequest.Save | api/models.py:386-398 | saving fills a missing timestamp of a processing or complete request and changes nothing else |
| RequestModel.VisualizationRequest.MarkAsProcessing | api/models.py:421-429 | processing from 0, started now; a task id is stored only when a non-empty one is given |
| RequestModel.VisualizationRequest.UpdateProgress | api/models.py:431-436 | the percentage is clamped to 0..100 and the message replaced only by a non-empty one |
| RequestModel.VisualizationRequest.MarkAsComplete | api/models.py:438-444 | complete at 100, completed now, with the fixed success message |
| RequestModel.VisualizationRequest.MarkAsFailed | api/models.py:446-457 | failed at 0; a non-empty error is stored and quoted, cut to fit, in the status message; otherwise the generic message and the stored error is kept |
| RequestModel.VisualizationRequest.ProcessingDuration | api/models.py:400-405 | a duration exactly when both timestamps are set, equal to their difference |
| RequestModel.ProcessingThenComplete | api/models.py:421-444 | a request taken through processing and completion has a defined duration, equal to finish minus start |
| RequestModel.ValidateImageSize | api/models.py:20-25 | a validation error exactly for sizes above 10 MiB |
| RequestModel.Extension | api/models.py:43 | the text after the last '.', or the whole name when it has none |
| RequestModel.ExtensionOfJoin | api/models.py:43-44 | a name ending in '.' followed by a dot-free text has that text as extension |
| RequestModel.Join3 | api/models.py:45 | joining relative components puts each after a '/' |
| RequestModel.JoinedExtension | api/models.py:44-45 | a path joined from a stem and a file's extension keeps that extension |
| RequestModel.UploadToOriginals | api/models.py:41-45 | the path is under `originals/<user id>/` and keeps the upload's extension |
| RequestModel.UploadToGenerated | api/models.py:48-59 | the path is under `generated/<user id>/`, the user being the request's, and keeps the extension |
| RequestModel.UploadToReferenceImages | api/models.py:607-611 | the path is under `reference_images/<tenant id>/` and keeps the extension |
| RequestModel.UploadToReferenceThumbnails | api/models.py:614-618 | the path is under `reference_images/<tenant id>/thumbs/` and keeps the extension |
| Serializers.StripSeparators | api/serializers.py:36 | the result keeps exactly the characters that are not '+', '-', ' ', '(' or ')' |
| Serializers.ValidatePhoneNumber | api/serializers.py:34-38 | an empty value passes; an accepted value is returned unchanged; a refusal carries the fixed message |
| Serializers.PhoneAccepted | api/serializers.py:36 | a non-empty number is accepted iff every character is a digit or a separator and at least one is a digit |
| Serializers.StrippedChars | api/serializers.py:36 | the stripped text is all digits iff the value has only digits and separators, and is non-empty iff the value has a non-separator |
| Serializers.DigitsOf | api/serializers.py:356 | the digits of the value, and nothing else |
| Serializers.DigitsOfCount | api/serializers.py:356-357 | the digits extracted are as many as the digits in the value |
| Serializers.ValidateLeadPhone | api/serializers.py:354-359 | accepted iff the value has at least ten digits, whatever surrounds them |
| Serializers.ValidateZip | api/serializers.py:361-366 | accepted iff the value has at least five digits |
| Serializers.FormattedPhoneAccepted | api/serializers.py:354-359 | "(555) 123-4567" is accepted and "555-1234" is refused |
| Serializers.ValidateOriginalImage | api/serializers.py:219-260 | accepted iff the file is present, of an allowed or undeclared type, at most 10 MiB, and decodes within 8192 by 8192 when it is decoded; a failing decode reads "Invalid image file: …" |
| Serializers.InvalidImage | api/serializers.py:255-258 | the re-raised dimension error reads "Invalid image file: …" |
| Serializers.FilterUpdateFields | api/serializers.py:272-281 | only the updatable 'screen_type' survives, with its value unchanged |
| Serializers.ValidateChoice | api/serializers.py:309-327 | accepted iff the value is one of the active tenant's choice ids |
| Serializers.ScreenTypeDisplay | api/serializers.py:208-217 | an empty tenant id reads as pools; an unknown one gives 'Visualization' |
| Serializers.PdfUrl | api/serializers.py:374-384 | the stored PDF's URL when there is one, else the `/api/visualization/<id>/pdf/` endpoint |
| Views.HasObjectPermission | api/views.py:37-42 | safe methods are always allowed; any other method only for the owner |
| Views.PerformUpdate | api/views.py:133-142 | a screen type that is neither null nor one of the six choice ids is refused first and nothing changes; then a request that is not pending or failed is refused unchanged; a null passes validation but is refused by the non-null column, unchanged; otherwise only the screen type is written, always a choice id, and status, progress, timestamps and messages are kept |
| Views.PerformDestroy | api/views.py:144-150 | refused exactly while the request is processing |
| Views.Retry | api/views.py:154-175 | a 400 with no change unless failed; a failed request goes back to pending with its error cleared, keeping progress, message and timestamps, and nothing is started |
| Views.Regenerate | api/views.py:178-195 | any request goes back to pending at 0 with its error cleared and the queued message, and processing is started |
| Views.BackgroundFailure | api/views.py:234-244 | an exception out of the processor fails the request with its text |
| Views.CountStatus | api/views.py:219-222 | a bucket never counts more requests than there are |
| Views.StatsPartition | api/views.py:212-225 | for requests in the four statuses, the four buckets add up to the total |
| Views.CountAppend | api/views.py:219-222 | counting is additive over concatenation |
| AiInterfaces.EveryType | api/ai_services/interfaces.py:15-20 | every service type is one of the three declared members |
| AiInterfaces.ParseType | api/ai_services/config.py:136-138 | `AIServiceType(v)` succeeds exactly on a member's value and returns that member |
| AiInterfaces.ParseTypeValue | api/ai_services/interfaces.py:15-20 | a type's value parses back to the type |
| AiRegistry.RemoveFirst | api/ai_services/registry.py:89-91 | removing a name keeps every other entry, changes nothing when it is absent, and on a list without repeats leaves it out entirely |
| AiRegistry.EmptyMappings | api/ai_services/registry.py:33-41 | every type starts with an empty provider list |
| AiRegistry.NoDupBound | api/ai_services/registry.py:60-64 | a provider list without repeats drawn from the registered names is no longer than the registry |
| AiRegistry.ServiceRegistry.constructor | api/ai_services/registry.py:27-41 | no providers, and an empty list per type |
| AiRegistry.ServiceRegistry.Register | api/ai_services/registry.py:43-71 | succeeds iff the provider's services can be read; the provider is stored under its name; the name is appended once to each advertised type not yet listing it; other lists are unchanged |
| AiRegistry.ServiceRegistry.Unregister | api/ai_services/registry.py:73-101 | False with no change for an unknown name; otherwise the name leaves the provider map and every list, the rest kept |
| AiRegistry.ServiceRegistry.FindBest | api/ai_services/registry.py:200-229 | the first provider listed for the type whatever the requirements, `None` iff none is listed, and always a registered provider |
| AiRegistry.ServiceRegistry.Capabilities | api/ai_services/registry.py:145-175 | nothing for an unknown name; otherwise the provider's name, available iff its services can be read, with those services or an empty list |
| AiRegistry.ServiceRegistry.Status | api/ai_services/registry.py:177-198 | the number of providers, each type's list length and each provider's capabilities |
| AiRegistry.ServiceRegistry.Clear | api/ai_services/registry.py:231-240 | no providers, and every type's list emptied |
| AiRegistry.ServiceRegistry.ListsBounded | api/ai_services/registry.py:60-64 | no type lists more providers than are registered |
| AiRegistry.RegisterThenUnregister | api/ai_services/registry.py:43-101 | a provider registered into an empty registry is the best choice for its type, and after unregistering it there is none |
| AiConfig.CreateConfigFromDict | api/ai_services/config.py:133-155 | an entry is kept iff its type (default image_generation) is a member's value; the key, endpoint and model are copied and the limits default to 60 and 30 |
| AiConfig.ValidateConfig | api/ai_services/config.py:204-235 | valid iff the name is non-empty, the type is set and both limits compare greater than 0; a limit that cannot be compared makes it invalid |
| AiConfig.DefaultConfigValid | api/ai_services/config.py:204-235 | a configuration with only a name and a type is valid iff the name is non-empty |
| AiConfig.EmptyDictConfig | api/ai_services/config.py:133-155 | an empty dict gives an image-generation configuration valid iff the name is non-empty |
| AiConfig.SavedDict | api/ai_services/config.py:247-258 | a saved entry holds every field but the API key |
| AiConfig.SaveLoadRoundTrip | api/ai_services/config.py:118-155 | reading a saved entry back gives the configuration it came from, without its API key |
| AiConfig.LoadedNames | api/ai_services/config.py:52-64 | after loading a name is configured iff it was before or some entry for it made a configuration |
| AiConfig.ConfigManager.constructor | api/ai_services/config.py:26-27 | nothing loaded yet |
| AiConfig.ConfigManager.LoadEntries | api/ai_services/config.py:57-61 | each entry that makes a configuration is stored under its name, later ones winning |
| AiConfig.ConfigManager.SetConfig | api/ai_services/config.py:169-178 | that one name maps to the configuration and every other entry is untouched |
| AiConfig.ConfigManager.ConfigsByType | api/ai_services/config.py:189-202 | exactly the entries whose type is the given one |
| AiConfig.ConfigManager.SaveData | api/ai_services/config.py:237-264 | the saved form of every entry, without API keys, or nothing when some entry has no type and the save fails |
| AiConfig.ConfigManager.Status | api/ai_services/config.py:266-288 | the count, the per-type counts and the configured names |
| AiConfig.ConfigManager.TypeCountsBounded | api/ai_services/config.py:280-283 | the per-type counts never add up to more than the number of configurations |
| AiFactory.ChosenName | api/ai_services/factory.py:47-56 | the caller's non-empty provider name, else the registry's best provider for the type |
| AiFactory.ConfigFor | api/ai_services/factory.py:64-72 | the caller's configuration, else the manager's for the provider, else a default one of the requested type |
| AiFactory.CreateService | api/ai_services/factory.py:30-137 | a service iff a non-empty provider name is chosen, registered and creates the service from the chosen configuration; never one when no provider is named or listed |
| AiFactory.CreateByType | api/ai_services/factory.py:140-179 | generation and vision go to their own creation; enhancement tries generation and falls back to vision |
| AiFactory.AvailableProviders | api/ai_services/factory.py:182-199 | exactly the providers listed for the type, each with its capabilities |
| AiFactory.TypeValues | api/ai_services/factory.py:248 | the type values in declaration order |
| AiFactory.Status | api/ai_services/factory.py:236-255 | version 1.0.0, the registry's status, the type values and the total of the per-type list lengths |
| AiFactory.TotalBounded | api/ai_services/factory.py:249-252 | the total counts each provider at most once per type |
| GeminiProvider.CreateService | api/ai_services/providers/gemini_provider.py:38-61 | generation and enhancement both give the generation service over the given configuration, which exists iff an API key is configured or set in the environment; computer vision is refused with ValueError |
| GeminiProvider.DeriveOptions | api/ai_services/providers/gemini_provider.py:79-99 | exactly color, mesh type and opacity; color falls back to Black and opacity to 95 whenever missing or falsy, the mesh type to 12x12 only when missing, and without preferences all three defaults are used |
| GeminiProvider.InferScope | api/ai_services/providers/gemini_provider.py:104-113 | doors and patio are set iff the lower-cased type contains them; windows is set iff it contains window or neither of the others matched, so some area is always set |
| GeminiProvider.ScopeFor | api/ai_services/providers/gemini_provider.py:101-113 | the preferences' non-empty scope, else the inferred one; without preferences the lookup itself raises |
| GeminiProvider.GenerateAsWritten | api/ai_services/providers/gemini_provider.py:115-123 | as written every call fails with no progress reported, with the unexpected-error message of the rejected tenant_id keyword |
| GeminiProvider.ResultOf | api/ai_services/providers/gemini_provider.py:125-160 | success iff the pipeline raised nothing, then completed with the images, score and reason; a visualizer error becomes its own message, any other error gets the Unexpected error prefix |
| GeminiProvider.Generate | api/ai_services/providers/gemini_provider.py:67-160 | with the call the pipeline accepts: the tenant's pipeline runs on the derived options and scope and its outcome and progress events are reported; without preferences it fails before reporting progress |
| GeminiProvider.TenantKeywordAlwaysFails | api/ai_services/providers/gemini_provider.py:115-123 | whenever the corrected call's pipeline succeeds, the as-written call still fails with the keyword error |
| GeminiProvider.TenantKeywordWitness | api/visualizer/services.py:33 | a concrete tenant, image and preferences on which the corrected call succeeds and the as-written one fails |
| EnhancedProcessor.DeriveScreenType | api/ai_enhanced_processor.py:87-96 | the request's screen type when there are no categories; otherwise patio_enclosure if some category lower-cases to patio, else door_single for door, else window_fixed |
| EnhancedProcessor.ScopeForwarded | api/ai_enhanced_processor.py:119-131 | the request's scope reaches the pipeline iff it is non-empty, otherwise the provider infers one from the screen type |
| EnhancedProcessor.FilterMetadata | api/ai_enhanced_processor.py:233-239 | a key is kept iff its value is not bytes and it is not one of the two image keys, with its value unchanged |
| EnhancedProcessor.StoredMetadata | api/ai_enhanced_processor.py:233-239 | of a successful generation's metadata only the quality score and reason are stored |
| EnhancedProcessor.ProgressTrace | api/models.py:431-436 | at most one write per event, each clamped to 0..100 |
| EnhancedProcessor.ApplyProgress | api/ai_enhanced_processor.py:111-113 | each reported event writes its clamped percentage and, when non-empty, its message; the stored progress is the last value written, or the earlier one when none was; status, timestamps, inputs and outputs are unchanged |
| EnhancedProcessor.ProgressTraceSnoc | api/models.py:431-436 | one more reported event appends exactly its clamped percentage to the writes of the events before it, and a non-progress event appends nothing |
| EnhancedProcessor.LastMessageSnoc | api/models.py:434-435 | one more event with a non-empty message leaves that message as the status message; any other event leaves the message the earlier events left |
| EnhancedProcessor.AuditAndReport | api/ai_enhanced_processor.py:174-199 | progress 92; the returned audit report is stored; if its vulnerabilities value has no length the `TypeError` is returned and nothing more happens; otherwise progress 96 and the PDF is set iff the generator worked; an audit or PDF failure changes nothing else |
| EnhancedProcessor.ReplyVulnerabilitiesDecideCrash | api/ai_enhanced_processor.py:177-182 | a fresh audit whose reply gives vulnerabilities a value without a length (null, a bool or a number) escapes with that value's `TypeError`; a string, list or dict, or a missing key (the default list), does not; the reply's report is stored either way |
| EnhancedProcessor.FinishSuccess | api/ai_enhanced_processor.py:144-203 | the clean image is stored and exactly one generated image is saved with the filtered metadata under the variation name; if the audit's log line raises, the request fails with that error, progress 90, 92, 0, and nothing is returned; otherwise the PDF is attempted and the request completes at 100 |
| EnhancedProcessor.Visualize | api/ai_enhanced_processor.py:111-213 | given the provider's answer: its progress reports are replayed; a failed generation fails the request with the generation message and saves nothing; a successful one completes it, or fails it with the audit's `TypeError`, as FinishSuccess states |
| EnhancedProcessor.ProcessImage | api/ai_enhanced_processor.py:69-213 | the request starts processing at now; an unreadable photo or an unavailable service fails it with the error prefix and saves nothing; otherwise the outcome follows the provider's answer and the audit, with the full progress trace stated |
| EnhancedProcessor.GenerationSaveable | api/ai_enhanced_processor.py:144-150 | every successful answer of the provider carries both images as bytes, so the success branch can save them |
| EnhancedProcessor.AsWrittenGeneration | api/ai_services/providers/gemini_provider.py:115-123 | with the provider as written the processor's generation fails with the unexpected-keyword error and reports no progress |
| EnhancedProcessor.EarlyFailureSettles | api/ai_enhanced_processor.py:204-213 | a generation that fails before reporting progress leaves the request failed with the generation message, nothing saved, and one write of 0 |
| EnhancedProcessor.AsWrittenProcessingFails | api/ai_enhanced_processor.py:204-213 | with the provider as written, a request whose photo opens and whose service exists never completes: it fails with the provider's unexpected-keyword error, nothing saved, and one write of 0 after the opening writes |
| BaseProvider.RateStep | api/ai_services/providers/base_provider.py:62-94 | a first call opens a window uncounted and is allowed; later calls reset the window after 60 seconds and are allowed iff the count is below the maximum, which then grows by one; the count never exceeds the maximum |
| BaseProvider.WithinWindow | api/ai_services/providers/base_provider.py:81-94 | within one window calls are allowed until the count reaches the maximum and then denied |
| BaseProvider.FirstWindowAllowance | api/ai_services/providers/base_provider.py:75-94 | of the calls within 60 seconds of a key's first, exactly the first maximum-plus-one are allowed |
| BaseProvider.SumCountsAt | api/ai_services/providers/base_provider.py:43 | the request total splits at any key |
| BaseProvider.SumCountsUpdate | api/ai_services/providers/base_provider.py:43 | setting one key's count changes the total by the difference |
| BaseProvider.Values | api/ai_services/providers/base_provider.py:41 | the type values of the supported services, in order |
| BaseProvider.BaseAiProvider.constructor | api/ai_services/providers/base_provider.py:24-29 | the name and services given and empty bookkeeping |
| BaseProvider.BaseAiProvider.ValidateServiceType | api/ai_services/providers/base_provider.py:47-60 | true iff the type is among the supported services |
| BaseProvider.BaseAiProvider.WindowOf | api/ai_services/providers/base_provider.py:76 | a key has a window iff it is tracked |
| BaseProvider.BaseAiProvider.CheckRateLimit | api/ai_services/providers/base_provider.py:62-94 | the provider-and-type key moves as RateStep says and every other key is unchanged |
| BaseProvider.BaseAiProvider.Info | api/ai_services/providers/base_provider.py:37-45 | name, service values, instance count, status active, and the total of the per-key request counts |
| BaseProvider.BaseAiProvider.ServiceHealth | api/ai_services/providers/base_provider.py:135-164 | degraded iff some supported service's check raised, otherwise healthy; one entry per supported service |
| BaseProvider.BaseAiProvider.BaseHealth | api/ai_services/providers/base_provider.py:166-184 | with the base check the provider is healthy and each entry reports when its key last opened a window |
| BaseProvider.BaseAiProvider.Cleanup | api/ai_services/providers/base_provider.py:186-190 | every bookkeeping map is emptied, name and services kept |
| BaseProvider.FirstCallsCounted | api/ai_services/providers/base_provider.py:76-94 | a fresh provider allows two calls within a window and then reports a total of 1, since the first call was not counted |
| Performance.PercentBounded | api/ai_services/utils/performance_utils.py:91 | a hit count's percentage of the request count lies between 0 and 100 |
| Performance.PerformanceTracker.constructor | api/ai_services/utils/performance_utils.py:16-25 | every counter and the average at zero, monitoring on |
| Performance.PerformanceTracker.TrackRequest | api/ai_services/utils/performance_utils.py:27-54 | nothing changes while monitoring is off; otherwise the request is counted once as a hit or a miss, its time and cost are added, and the running average stays the mean of the scores counted |
| Performance.PerformanceTracker.GetMetrics | api/ai_services/utils/performance_utils.py:79-99 | the counters and average as stored; with no requests the derived rates are 0, otherwise the hit rate is the hits' percentage, between 0 and 100, and the averages are per request |
| Performance.PerformanceTracker.Clear | api/ai_services/utils/performance_utils.py:105-114 | every counter and the average back to zero |
| Performance.TrackAll | api/ai_services/utils/performance_utils.py:42-49 | from a fresh tracker every request is counted once, the requests are exactly the hits plus the misses, and the hits are the requests served from cache |
| Performance.TrackScores | api/ai_services/utils/performance_utils.py:51-54 | from a fresh tracker the running average of the scores is their mean, and 0 when there are none |
| Performance.CacheManager.constructor | api/ai_services/utils/performance_utils.py:241-243 | an empty cache with the given time-to-live |
| Performance.CacheManager.Get | api/ai_services/utils/performance_utils.py:245-272 | the stored result iff the key is present and younger than the time-to-live; an expired entry is deleted and reads as None, like a missing one |
| Performance.CacheManager.Set | api/ai_services/utils/performance_utils.py:274-290 | the entry is overwritten and stamped with the current time, nothing else changes |
| Performance.CacheManager.Clear | api/ai_services/utils/performance_utils.py:292-295 | the cache is empty and its size is 0 |
| Performance.CacheManager.Size | api/ai_services/utils/performance_utils.py:297-299 | the number of cached keys |
| Performance.CacheManager.ExpiredKeys | api/ai_services/utils/performance_utils.py:310-313 | exactly the keys whose age has reached the time-to-live |
| Performance.CacheManager.CleanupExpired | api/ai_services/utils/performance_utils.py:301-321 | exactly the expired entries go, the fresh ones stay unchanged, and the number removed plus the number kept is the old size |
| Performance.SetThenGet | api/ai_services/utils/performance_utils.py:256-262 | a result just set is returned by a lookup within the time-to-live |
| Performance.SetThenExpire | api/ai_services/utils/performance_utils.py:263-268 | after the time-to-live the lookup misses and the entry is gone |
| PromptTerms.QualityTermsNoUpper | api/ai_services/utils/prompt_utils.py:120-129 | no maximum-quality term has an upper-case letter, so the lower-cased membership test can find it |
| PromptText.SplitFrom | api/ai_services/utils/prompt_utils.py:34 | every word found is a non-empty run without separators |
| PromptText.Words | api/ai_services/utils/prompt_utils.py:34 | `split()` yields only non-empty runs without separators |
| PromptText.WithSpecs | api/ai_services/utils/prompt_utils.py:220-230 | starts with the base, then the first specification after a comma or the closing when there is none, and ends with the closing |
| PromptText.FirstSpecFollowsBase | api/ai_services/utils/prompt_utils.py:221-222 | the first included specification follows the base and a comma |
| PromptUtils.AddKeyTerms | api/ai_services/utils/prompt_utils.py:41-45 | the cut prompt is kept as a prefix, a result within the limit stays within it, and nothing is added when the original mentions no key term |
| PromptUtils.KeptWords | api/ai_services/utils/prompt_utils.py:34-38 | the first `max_length // 6` words of the prompt, or all of them when there are fewer |
| PromptUtils.OptimizedPrompt | api/ai_services/utils/prompt_utils.py:12-48 | a prompt within the limit is returned unchanged; a longer one starts with its first words joined by single spaces and stays within the limit whenever those words do |
| PromptUtils.AddKeyTermsLoop | api/ai_services/utils/prompt_utils.py:41-45 | the loop computes the key-term pass |
| PromptUtils.OptimizePrompt | api/ai_services/utils/prompt_utils.py:12-48 | the method computes the specified optimised prompt |
| PromptUtils.NoKeyTermsNoAdditions | api/ai_services/utils/prompt_utils.py:42-45 | a long prompt mentioning no key term is only cut to its first words |
| PromptUtils.AppendAbsent | api/ai_services/utils/prompt_utils.py:96-99 | the enhancers' loop computes the append-if-absent function |
| PromptUtils.AppendedExtends | api/ai_services/utils/prompt_utils.py:96-99 | the enhancers only append: the prompt is a prefix of the result |
| PromptUtils.AppendedKeeps | api/ai_services/utils/prompt_utils.py:96-99 | what the prompt mentions it still mentions afterwards |
| PromptUtils.AppendedMentionsAll | api/ai_services/utils/prompt_utils.py:131-134 | afterwards the lower-cased prompt mentions every lower-case term |
| PromptUtils.AppendedNoop | api/ai_services/utils/prompt_utils.py:97-98 | a prompt already mentioning every term is left as it is |
| PromptUtils.AppendedIdempotent | api/ai_services/utils/prompt_utils.py:131-134 | running an enhancer twice gives what running it once gives |
| PromptUtils.ImprovementTerms | api/ai_services/utils/prompt_utils.py:68-93 | the major tier for a gap above 0.2, the moderate one above 0.1, the minor one otherwise |
| PromptUtils.ImprovePrompt | api/ai_services/utils/prompt_utils.py:55-102 | the chosen tier's missing terms are appended to the prompt, which stays a prefix |
| PromptUtils.MaximumQualityPrompt | api/ai_services/utils/prompt_utils.py:109-136 | the base is a prefix and the result mentions every quality term |
| PromptUtils.MaximumQualityIdempotent | api/ai_services/utils/prompt_utils.py:109-136 | applying it twice gives what applying it once gives |
| PromptUtils.ChatGptQualityPrompt | api/ai_services/utils/prompt_utils.py:298-344 | the first four enhancements, then the first three specifications, appended when absent, the base kept as prefix |
| PromptUtils.MaterialSpecifications | api/ai_services/utils/prompt_utils.py:242-286 | the type's entry, or the security entry for any other type, always with a material description |
| PromptUtils.SpecsOf | api/ai_services/utils/prompt_utils.py:172-218 | three specifications per present category, none when no category is present |
| PromptUtils.ReferenceSpecs | api/ai_services/utils/prompt_utils.py:170-218 | at most eighteen reference specifications before the limit |
| PromptUtils.IncludedSpecs | api/ai_services/utils/prompt_utils.py:220-222 | the first six reference specifications, or all when fewer |
| PromptUtils.Closing | api/ai_services/utils/prompt_utils.py:224-230 | the material description after a comma, then the fixed quality requirements |
| PromptUtils.ReferenceEnhancedPrompt | api/ai_services/utils/prompt_utils.py:143-235 | the base unchanged when every reference list is empty; otherwise the base, at most six specifications, the material description and the quality closing, the base always a prefix |
| PromptUtils.EmptyReferencesNoSpecs | api/ai_services/utils/prompt_utils.py:157-162 | with every list empty no category contributes a specification |
| PromptUtils.UnknownCategoriesStillEnhance | api/ai_services/utils/prompt_utils.py:157-230 | lists only under unknown categories still enhance the prompt, with no reference specification |
| ProductionMonitor.EmptyReportDefaults | api/monitoring/production_monitor.py:36-45 | an empty report is recorded as an unscored, free, uncached failure of an unknown model |
| ProductionMonitor.KeepLast | api/monitoring/production_monitor.py:49-51 | the last `n` entries in order, or all of them when there are fewer |
| ProductionMonitor.KeepLastAppend | api/monitoring/production_monitor.py:47-51 | truncating after every append keeps what truncating once at the end keeps |
| ProductionMonitor.AlertIf | api/monitoring/production_monitor.py:146-181 | one alert of the type, with its severity and the entry's time, iff its condition holds |
| ProductionMonitor.AlertsForFire | api/monitoring/production_monitor.py:146-181 | each alert type is raised iff its condition holds: a failure, more than 60 s, a score strictly between 0 and 0.70, a cost above 1.0 |
| ProductionMonitor.AlertsForShape | api/monitoring/production_monitor.py:146-181 | at most four alerts, each with its type's severity and the entry's time; a failure's high-severity error alert comes first |
| ProductionMonitor.UnscoredNoQualityAlert | api/monitoring/production_monitor.py:166 | a score of 0 never raises a quality alert |
| ProductionMonitor.Since | api/monitoring/production_monitor.py:70-74 | a subsequence of the history (its order kept) holding each entry stamped after the cutoff exactly as often as the history does, and no other |
| ProductionMonitor.SinceMembers | api/monitoring/production_monitor.py:70-74 | an entry is kept iff it is in the history and stamped after the cutoff |
| ProductionMonitor.Successes | api/monitoring/production_monitor.py:85 | no more successes than entries |
| ProductionMonitor.CacheHits | api/monitoring/production_monitor.py:91 | no more cache hits than entries |
| ProductionMonitor.Scores | api/monitoring/production_monitor.py:217 | only the positive scores, in order |
| ProductionMonitor.ShareBounded | api/monitoring/production_monitor.py:86 | a count's share of a larger positive total lies in 0..1 |
| ProductionMonitor.Quotient | api/monitoring/production_monitor.py:88 | dividing by a positive number and multiplying back gives the number |
| ProductionMonitor.MetricsOf | api/monitoring/production_monitor.py:83-94 | the request count and total cost; the error rate is the failures' share of the requests and the cache-hit rate the hits' share (each within 0..1); the mean time is the total time over the count; the mean quality is the positive scores' sum over their count, 0 when there are none |
| ProductionMonitor.Share | api/monitoring/production_monitor.py:86 | the quotient of part by total, within 0..1 when the part is no larger |
| ProductionMonitor.Mean | api/monitoring/production_monitor.py:89 | the total divided by the count, or the total itself when the count is 0 |
| ProductionMonitor.Assess | api/monitoring/production_monitor.py:96-118 | each issue is listed iff its threshold is crossed; warning iff a cache or cost condition holds, else degraded iff an error, time or quality condition holds, else healthy with no issue |
| ProductionMonitor.SystemHealth | api/monitoring/production_monitor.py:59-132 | unknown iff there is no history; stale, dated by the last entry, iff nothing is from the last hour; otherwise the hour's figures and their assessment |
| ProductionMonitor.UnscoredHourReadsAsLowQuality | api/monitoring/production_monitor.py:89-110 | an hour without scores averages 0 quality, so low quality is listed and the status is degraded or warning |
| ProductionMonitor.NoScores | api/monitoring/production_monitor.py:217 | without positive scores the score list is empty |
| ProductionMonitor.DistributionOf | api/monitoring/production_monitor.py:219-224 | each bucket counts exactly the scores of its range (from 0.85; 0.75 to 0.85; 0.65 to 0.75; below 0.65), the four count every score once, and all are excellent iff every score is at least 0.85 |
| ProductionMonitor.QualityDashboard | api/monitoring/production_monitor.py:200-239 | an error iff there is no history or nothing from the last 24 hours; otherwise the request and success counts, the four grade counts of the scored requests, the mean score (0 when none is scored), the mean processing time, the total cost, and the hits' share of the requests within 0..1 |
| ProductionMonitor.InsertNewest | api/monitoring/production_monitor.py:282 | the list with the alert added, as a multiset |
| ProductionMonitor.InsertNewestSorted | api/monitoring/production_monitor.py:282 | insertion keeps a newest-first list newest first |
| ProductionMonitor.HeadNewest | api/monitoring/production_monitor.py:282 | a newest-first list's head is at least as new as the rest |
| ProductionMonitor.ConsNewest | api/monitoring/production_monitor.py:282 | an alert at least as new as all of a newest-first list can go in front |
| ProductionMonitor.SortNewestFirst | api/monitoring/production_monitor.py:282 | newest first and a permutation of the input |
| ProductionMonitor.AlertsSince | api/monitoring/production_monitor.py:276-279 | a subsequence of the alerts (their order kept) holding each alert stamped after the cutoff exactly as often as stored, and no other |
| ProductionMonitor.RecentAlerts | api/monitoring/production_monitor.py:271-284 | exactly the alerts of the last `hours` hours, each as often as stored, newest first |
| ProductionMonitor.Monitor.constructor | api/monitoring/production_monitor.py:19-29 | no history, no alerts, monitoring on |
| ProductionMonitor.Monitor.RecordRequestMetrics | api/monitoring/production_monitor.py:31-57 | the entry is appended and the history cut to its last 1000, the new entry last, and its alerts recorded |
| ProductionMonitor.Monitor.CheckAlerts | api/monitoring/production_monitor.py:142-188 | the entry's alerts are appended and the list cut to its last 100 |
| ProductionMonitor.FailureAlertStored | api/monitoring/production_monitor.py:148-188 | a failed request's high-severity error alert is among the stored alerts, whatever was stored before |
| PricingBase.LoadProfile | api/pricing/calculators/base.py:21-31 | a profile is loaded iff the contractor id is non-empty and has an active profile, and it is that profile |
| PricingBase.NewCalculator | api/pricing/calculators/base.py:16-19 | the calculator keeps its vertical and contractor id and the loaded profile; no id means no profile |
| PricingBase.ApplyOverhead | api/pricing/calculators/base.py:59-66 | what is added is the overhead percentage of the amount, 15 % without a profile |
| PricingBase.ApplyMarkup | api/pricing/calculators/base.py:68-75 | what is added is the profit margin of the amount, 25 % without a profile |
| PricingBase.ApplyTax | api/pricing/calculators/base.py:77-83 | only the tax, the tax rate's share of the amount, 8.25 % without a profile |
| PricingBase.DefaultPercentages | api/pricing/calculators/base.py:59-83 | without a profile 1000 becomes 1150 with overhead and 1250 with markup, and its tax is 82.5 |
| PricingBase.Totals | api/pricing/calculators/base.py:54-55 | the line items' totals, in order |
| PricingBase.Amounts | api/pricing/calculators/base.py:103 | the breakdown's amounts, in order |
| PricingBase.FinalPrice | api/pricing/calculators/base.py:85-130 | the subtotal is the breakdown's sum; overhead on the subtotal, profit on the subtotal with overhead, tax on the marked-up amount; the total is their sum, tagged estimate with the vertical id |
| PricingBase.FinalPriceCompounds | api/pricing/calculators/base.py:101-115 | the total is the subtotal raised in turn by the overhead, the markup and the tax |
| PricingBase.DefaultProfileSamePrice | api/pricing/models.py:88-93 | a profile with the default percentages prices exactly as no profile does |
| PoolsPricing.SumWaterFeatures | api/pricing/calculators/pools.py:90-95 | the loop adds exactly the known water features' prices |
| PoolsPricing.SumBuiltIns | api/pricing/calculators/pools.py:97-103 | the loop adds exactly the enabled known built-ins' prices |
| PoolsPricing.CalculateBaseCost | api/pricing/calculators/pools.py:63-118 | material, then labor at 35 % and equipment at 10 % of the material |
| PoolsPricing.ClassicDefaults | api/pricing/calculators/pools.py:66-88 | the defaults price the classic rectangle shell at 65000 and 600 sq ft of travertine at 18, 75800 in all |
| PoolsPricing.UnknownSelectionsFallBack | api/pricing/calculators/pools.py:75-87 | an unknown size, shape, finish or deck prices as if it had not been selected |
| PoolsPricing.ShapeScalesShellOnly | api/pricing/calculators/pools.py:78-80 | the shape changes the material cost only through the shell |
| PoolsPricing.FreeformCostsMore | api/pricing/calculators/pools.py:19 | a freeform shell costs 15 % of the size's base price more than a rectangle |
| PoolsPricing.WaterFeaturesAdd | api/pricing/calculators/pools.py:90-106 | the water features raise the material cost by exactly their prices |
| PoolsPricing.WaterfallAndFireBowls | api/pricing/calculators/pools.py:43-46 | a rock waterfall and fire bowls add 11500 |
| PoolsPricing.UnknownWaterFeaturesFree | api/pricing/calculators/pools.py:93-95 | an unknown water feature adds nothing, wherever it is listed |
| PoolsPricing.AppendWaterLines | api/pricing/calculators/pools.py:165-175 | the loop appends exactly the known water features' lines |
| PoolsPricing.AppendBuiltInLines | api/pricing/calculators/pools.py:177-188 | the loop appends exactly the enabled known built-ins' lines |
| PoolsPricing.GetLineItems | api/pricing/calculators/pools.py:120-190 | the method builds the specified line items |
| PoolsPricing.TotalsAppend | api/pricing/calculators/pools.py:131-188 | the line totals of two lists add up |
| PoolsPricing.WaterItemsTotal | api/pricing/calculators/pools.py:165-175 | the water-feature lines add up to the water features' cost |
| PoolsPricing.BuiltInItemsTotal | api/pricing/calculators/pools.py:177-188 | the built-in lines add up to the built-ins' cost |
| PoolsPricing.LineItemsTotalMaterial | api/pricing/calculators/pools.py:63-190 | the line items add up to the material cost of the breakdown |
| PoolsPricing.WaterItemsCount | api/pricing/calculators/pools.py:166-168 | one water-feature line per known id listed |
| PoolsPricing.LineItemsShape | api/pricing/calculators/pools.py:131-163 | the shell line comes first; the interior line is present iff the finish adds a positive price; the deck line follows |
| PoolsPricing.DefaultLineItems | api/pricing/calculators/pools.py:124-163 | the defaults give the Classic (15x30) shell at 65000 and 600 sq ft of travertine at 18 |
| PoolsPricing.PoolSubtotal | api/pricing/calculators/pools.py:105-118 | the subtotal is the material cost times 1.45 |
| PoolsPricing.CalculateFinalPrice | api/pricing/calculators/base.py:85-130 | a pools price is the final price of its breakdown and lines; its subtotal is 1.45 times the material, which the lines add up to |
| PricingRegistry.GetCalculator | api/pricing/calculators/__init__.py:21-39 | a calculator iff the vertical is pools, built for the contractor with the loaded profile; otherwise the not-found error naming the vertical |
| PricingRegistry.AnonymousCalculatorDefaults | api/pricing/calculators/__init__.py:35-39 | a pools calculator without a contractor has no profile and so uses the defaults |
| PriceOverride.EffectivePrice | api/pricing/models.py:118-125 | the custom price when set, even beside an adjustment; else the base adjusted by the percentage; else the base |
| PriceOverride.OnlyBasePriceMatters | api/pricing/models.py:118-125 | the item's multiplier and per-unit price never matter |
| PriceOverride.AdjustmentDirection | api/pricing/models.py:123-124 | a positive adjustment raises a positive base price and a negative one lowers it, both directions |
| PriceOverride.NewProfileMatchesDefaults | api/pricing/models.py:88-93 | a new profile's defaults equal the calculator's, so it prices as no profile does |
| PdfUpgrades.Group | api/utils/pdf_generator.py:94-99 | a group is added iff it has upgrades, with its category and selection |
| PdfUpgrades.UpgradesMembers | api/utils/pdf_generator.py:144-151 | an upgrade is listed iff some accepted catalog entry gives it |
| PdfUpgrades.CollectUpgrades | api/utils/pdf_generator.py:144-151 | the loop appends an upgrade for exactly the accepted entries, in order |
| PdfUpgrades.FirstMatch | api/utils/pdf_generator.py:138-142 | the loop that breaks at the first entry with the id finds what the lookup finds |
| PdfUpgrades.PoolSizesDistinct | api/tenants/pools/config.py:11-61 | the pool size ids are distinct |
| PdfUpgrades.SizesAfterEach | api/utils/pdf_generator.py:88-93 | every size becomes one upgrade, in order, priced at the difference |
| PdfUpgrades.SizeIndex | api/utils/pdf_generator.py:83-84 | the index of the first size with the id, none iff no size has it |
| PdfUpgrades.SizeUpgrades | api/utils/pdf_generator.py:76-93 | an unknown selection keeps the default name and offers nothing; with distinct ids the sizes after the selected one, each at its price difference |
| PdfUpgrades.UnselectedMembers | api/utils/pdf_generator.py:104-110 | an upgrade is offered iff it is a feature not selected, at its price |
| PdfUpgrades.AllSelectedNoUpgrades | api/utils/pdf_generator.py:104-111 | selecting every feature leaves no water-feature upgrade |
| PdfUpgrades.UnselectedFeatures | api/utils/pdf_generator.py:102-110 | the loop appends exactly the features not selected |
| PdfUpgrades.SelectedLabel | api/utils/pdf_generator.py:114 | None iff nothing is selected |
| PdfUpgrades.PoolsUpgrades | api/utils/pdf_generator.py:72-116 | the pools branch builds the specified size and water-feature groups |
| PdfUpgrades.WindowsUpgrades | api/utils/pdf_generator.py:118-157 | the windows branch builds the specified frame-material group, with exact rather than float truncation |
| PdfUpgrades.RoofsUpgrades | api/utils/pdf_generator.py:159-186 | the roofs branch builds the specified solar group |
| PdfUpgrades.ScreensUpgrades | api/utils/pdf_generator.py:188-223 | the screens branch builds the specified mesh group |
| PdfUpgrades.GetAvailableUpgrades | api/utils/pdf_generator.py:63-225 | the method builds the specified groups for the tenant, none for an unknown one |
| PdfUpgrades.GroupsNonEmpty | api/utils/pdf_generator.py:94-223 | every group offers at least one upgrade |
| PdfUpgrades.PoolSizeUpgradesExact | api/utils/pdf_generator.py:76-99 | an unknown size offers no size upgrade; a known one offers exactly the sizes after it, at the price differences |
| PdfUpgrades.ClassicSizeUpgrades | api/utils/pdf_generator.py:76-93 | a classic pool is offered Family for 10000 more and Resort for 30000 more |
| PdfUpgrades.MaterialUpgradesCostMore | api/utils/pdf_generator.py:144-151 | a frame-material upgrade is another material with a higher multiplier, priced at the base price times the difference, truncated exactly (not as a float) |
| PdfUpgrades.SolarOnlyWithoutSolar | api/utils/pdf_generator.py:170-171 | a roof with solar selected gets no upgrade |
| PdfUpgrades.SolarUpgradesPriced | api/utils/pdf_generator.py:173-180 | solar upgrades are the options other than none, each at its wattage times 3 |
| PdfUpgrades.MeshUpgradesPriced | api/utils/pdf_generator.py:191-217 | a mesh upgrade is a pricier other mesh at the per-square-foot difference over patio and window area |
| PdfQuotes.Subtotals | api/utils/pdf_generator.py:246-251 | the items' subtotals, in order |
| PdfQuotes.ItemsTotalAppend | api/utils/pdf_generator.py:246-315 | the subtotal sum of two item lists adds up |
| PdfQuotes.AddLine | api/utils/pdf_generator.py:246-252 | one append-and-accumulate step keeps the total equal to the sum of the subtotals |
| PdfQuotes.Find | api/utils/pdf_generator.py:237 | an entry iff some entry has the id, and that entry has it |
| PdfQuotes.TitleFrom | api/utils/pdf_generator.py:347 | title-casing keeps length and casedness and leaves uncased characters, upper-casing a word's first letter |
| PdfQuotes.Display | api/utils/pdf_generator.py:347 | the same length with no underscore left |
| PdfQuotes.BuiltInPricesFromCatalog | api/utils/pdf_generator.py:269-279 | the tanning ledge and spa prices are the catalog's |
| PdfQuotes.AppendWaterLines | api/utils/pdf_generator.py:302-314 | the loop appends exactly the known features' lines and keeps the total equal to the sum |
| PdfQuotes.CalculatePoolsQuote | api/utils/pdf_generator.py:229-316 | the specified pool lines, the construction price truncated exactly rather than as a float, with the total the sum of their subtotals |
| PdfQuotes.DefaultPoolSelections | api/utils/pdf_generator.py:236-291 | without selections the classic size, rectangle, white plaster and travertine are quoted |
| PdfQuotes.DefaultConstructionLine | api/utils/pdf_generator.py:236-251 | the default construction line is a classic rectangle at 65000 |
| PdfQuotes.DefaultDeckLine | api/utils/pdf_generator.py:288-299 | the default deck line is 400 sq ft of travertine at 18 |
| PdfQuotes.DefaultPoolsQuote | api/utils/pdf_generator.py:229-316 | without selections the quote is the classic rectangle, the tanning ledge and the deck, 76700 in all |
| PdfQuotes.UnknownSizeQuotedAsClassic | api/utils/pdf_generator.py:237 | an unknown size is quoted as the classic size |
| PdfQuotes.TanningLedgeUnlessFalsy | api/utils/pdf_generator.py:268 | the tanning ledge line is present iff the option is missing or truthy |
| PdfQuotes.WaterLinesFromCatalog | api/utils/pdf_generator.py:303-314 | at most one line per id, each a catalog feature at its price |
| PdfQuotes.BuildWindowsQuote | api/utils/pdf_generator.py:348-393 | the loop appends the specified window lines and keeps the total equal to the sum |
| PdfQuotes.CalculateWindowsQuote | api/utils/pdf_generator.py:320-395 | the specified window lines, with the total the sum of their subtotals |
| PdfQuotes.WindowsQuoteLines | api/utils/pdf_generator.py:357-393 | a grille line iff a pattern is chosen, a glass line iff the glass is neither clear nor low-e, and installation at 150 a window last |
| PdfQuotes.CalculateRoofsQuote | api/utils/pdf_generator.py:399-460 | the specified roof lines, with the total the sum of their subtotals |
| PdfQuotes.RoofsQuoteLines | api/utils/pdf_generator.py:420-458 | a solar line iff an option other than none is chosen, 18000 for an unknown one; a gutter line iff the gutters are not none, over 200 linear feet |
| PdfQuotes.BuildScreensQuote | api/utils/pdf_generator.py:482-536 | the loop appends the specified screen lines and keeps the total equal to the sum |
| PdfQuotes.CalculateScreensQuote | api/utils/pdf_generator.py:464-538 | the specified screen lines, with the total the sum of their subtotals |
| PdfQuotes.ScreensQuoteLines | api/utils/pdf_generator.py:476-536 | patio area iff the patio is not turned off; one line per non-zero area, doors and priced colour; installation 500 plus 5 a square foot last |
| PdfQuotes.CalculateQuoteForTenant | api/utils/pdf_generator.py:542-556 | the tenant's quote, with the total the sum of the subtotals |
| PdfQuotes.UnknownTenantQuotedAsPool | api/utils/pdf_generator.py:546-556 | any other tenant, boss included, is quoted as a pool |
| PdfQuotes.TenantDisplayName | api/utils/pdf_generator.py:606-614 | Home Improvement iff the tenant is not one of the four named |
| ApiClient.BackoffDelay | frontend/src/services/api.js:143-146 | at least 1000 ms, doubling with each further retry |
| ApiClient.RouteOf | frontend/src/services/api.js:99-151 | the token refresh iff a 401 on a request not yet refreshed; otherwise a retry iff the error is retryable and fewer than three retries were made; else rejection |
| ApiClient.AtMostThreeRetries | frontend/src/services/api.js:140-143 | no request is retried more than three times |
| ApiClient.RetrySchedule | frontend/src/services/api.js:10-17 | a request that keeps failing with a retryable error other than a first 401 is retried after 1, 2 and 4 seconds; any other error is never retried |
| ApiClient.UnauthorizedFirst | frontend/src/services/api.js:99-100 | a first 401 goes to the refresh even when it is also retryable, and a second one never does |
| ApiClient.RequestConfig.constructor | frontend/src/services/api.js:20-26 | no authorization header and no retry marks |
| ApiClient.Client.IsLoading | frontend/src/services/api.js:181 | loading iff some request is active |
| ApiClient.Client.constructor | frontend/src/services/api.js:28-30 | no active request, no listener, no notification, the stored tokens and no default header |
| ApiClient.Client.AddListener | frontend/src/services/api.js:32-36 | the listener is added and nothing else changes |
| ApiClient.Client.RemoveListener | frontend/src/services/api.js:35 | the listener is removed and nothing else changes |
| ApiClient.Client.Notify | frontend/src/services/api.js:38-41 | every current listener receives the value |
| ApiClient.Client.OnRequest | frontend/src/services/api.js:44-62 | the stored access token becomes the bearer header; the counter goes up and listeners hear true iff it goes from 0 to 1 |
| ApiClient.Client.Complete | frontend/src/services/api.js:64-67 | the counter goes down but never below 0, and listeners hear false iff it is then 0 |
| ApiClient.Client.OnRequestError | frontend/src/services/api.js:63-69 | a request that fails before sending is counted out as Complete states |
| ApiClient.Client.OnResponse | frontend/src/services/api.js:74-88 | a response is counted out as Complete states |
| ApiClient.Client.SetAuthToken | frontend/src/services/api.js:169-178 | a non-empty token becomes the default header and the stored access token; an empty one removes the header and both tokens |
| ApiClient.Client.ClearAuth | frontend/src/services/api.js:126-134 | both tokens and the default header go and the page is the login page |
| ApiClient.Client.OnResponseError | frontend/src/services/api.js:89-165 | after counting the request out (and notifying listeners iff none is left): a first 401 is marked and refreshed with the stored refresh token, then resent with the new token and header on success, else both tokens and the header are cleared, the page goes to /login and it is rejected; a retryable error is resent after the backoff with one more retry; anything else is rejected; the last two leave tokens, header and page unchanged |
| ApiClient.ErrorMessage | frontend/src/services/api.js:191-194 | the body's detail, else its message, else the error's message, else the default, each only when non-empty |
| ApiClient.ProcessError | frontend/src/services/api.js:184-201 | the processed error has that message and keeps the status, the body and the error |
| ApiClient.StoreErrorText | frontend/src/store/authStore.js:94 | the error's message when non-empty, else the fallback |
| ApiClient.DefaultMessageLast | frontend/src/services/api.js:191-194 | with no detail, message or error text the default is the message |
| AuthStore.RemainingMinutes | frontend/src/store/authStore.js:51-61 | the minutes left on an active lock, rounded up, at least 1 |
| AuthStore.LoginErrorIsApiMessage | frontend/src/store/authStore.js:88-101 | a failed login records the API client's message with Login failed as default |
| AuthStore.LoggedInUser | frontend/src/store/authStore.js:72-87 | the response's user fields plus the username, the response winning |
| AuthStore.LockedRejectsWithoutCall | frontend/src/store/authStore.js:51-61 | while the lock is active the state is unchanged, the API plays no part and at least a minute is reported |
| AuthStore.FailureCounts | frontend/src/store/authStore.js:88-101 | a failure records the error and time and counts one more attempt, locking iff the count reaches five |
| AuthStore.SuccessResets | frontend/src/store/authStore.js:72-87 | a success authenticates with the new token and user and clears the failures, the lock and the error |
| AuthStore.RelockAfterExpiry | frontend/src/store/authStore.js:51-101 | after a lock expires the next failure locks again, since the count was never reset |
| AuthStore.FifthFailureLocks | frontend/src/store/authStore.js:88-101 | from the initial state failures 1 to 4 count up unlocked and the fifth locks |
| AuthStore.MergeUser | frontend/src/store/authStore.js:150-154 | the given fields replace, the others stay, no user counting as none |
| AuthStore.TokenExpired | frontend/src/store/authStore.js:157-169 | expired with no token or an unparseable payload; otherwise iff exp, in seconds, is before now, and never without exp |
| AuthStore.Store.constructor | frontend/src/store/authStore.js:31-40 | the initial state |
| AuthStore.Store.Reset | frontend/src/store/authStore.js:138-140 | the initial state |
| AuthStore.Store.Login | frontend/src/store/authStore.js:48-102 | the store moves as the login step says |
| AuthStore.Store.Register | frontend/src/store/authStore.js:104-126 | only the loading flag and the error change, the error cleared on success |
| AuthStore.Store.Logout | frontend/src/store/authStore.js:128-142 | whatever the API answers, the initial state |
| AuthStore.Store.ClearError | frontend/src/store/authStore.js:145-147 | only the error is cleared |
| AuthStore.Store.UpdateUser | frontend/src/store/authStore.js:150-154 | the fields are merged into the user, nothing else changes |
| AuthStore.Store.IsTokenExpired | frontend/src/store/authStore.js:157-169 | the stored token's expiry as TokenExpired states |
| AuthStore.Store.InitializeAuth | frontend/src/store/authStore.js:172-182 | a live token authenticates; otherwise the initial state |
| AuthStore.Store.RefreshAuth | frontend/src/store/authStore.js:185-210 | a live token is kept; otherwise a new token authenticates and a failed refresh resets the store |
| AuthStore.Persist | frontend/src/store/authStore.js:215-222 | exactly the user, token, authentication, last login time, attempts and lock are persisted |
| AuthStore.PersistIgnoresTransient | frontend/src/store/authStore.js:215-222 | the loading flag and the error are not persisted |
| VisualizationStore.RemoveId | frontend/src/store/visualizationStore.js:149 | the filtered list is no longer than the list |
| VisualizationStore.RemoveIdMembers | frontend/src/store/visualizationStore.js:149 | an entry is kept iff it was there and has another id |
| VisualizationStore.RemoveAbsentId | frontend/src/store/visualizationStore.js:149 | nothing is removed when no entry has the id |
| VisualizationStore.ReplaceId | frontend/src/store/visualizationStore.js:176-178 | the list keeps its length |
| VisualizationStore.ReplaceIdExact | frontend/src/store/visualizationStore.js:176-178 | exactly the entries with the id are replaced, each in its place |
| VisualizationStore.RequestById | frontend/src/store/visualizationStore.js:243-246 | an entry iff some entry has the id, and it is the first entry with that id |
| VisualizationStore.ByStatus | frontend/src/store/visualizationStore.js:248-251 | exactly the entries with that status, in list order and with their multiplicities |
| VisualizationStore.ByStatusMembers | frontend/src/store/visualizationStore.js:248-251 | an entry is kept iff it is listed and has the status |
| VisualizationStore.ByStatusCount | frontend/src/store/visualizationStore.js:248-251 | one entry per entry with the status |
| VisualizationStore.GetStats | frontend/src/store/visualizationStore.js:253-264 | the total and the counts of pending, processing, complete and failed entries |
| VisualizationStore.StatsWithinTotal | frontend/src/store/visualizationStore.js:257-263 | the four buckets never count more than the total |
| VisualizationStore.Fetched | frontend/src/store/visualizationStore.js:85-89 | the list body, else the results, else the single request wrapped in a list |
| VisualizationStore.FetchedTotal | frontend/src/store/visualizationStore.js:94 | the count when non-zero, else the fetched list's length |
| VisualizationStore.PageOf | frontend/src/store/visualizationStore.js:91-97 | the page, size and total, with next and previous iff the body has them |
| VisualizationStore.QueryParams | frontend/src/store/visualizationStore.js:78-83 | the call's filters win over the stored ones, which win over page and page size |
| VisualizationStore.MergeFilters | frontend/src/store/visualizationStore.js:218-222 | the given keys replaced or added, the others kept |
| VisualizationStore.Store.constructor | frontend/src/store/visualizationStore.js:36-63 | the initial state |
| VisualizationStore.Store.Persist | frontend/src/store/visualizationStore.js:278-281 | only the screen types and the filters are persisted |
| VisualizationStore.Store.FetchRequests | frontend/src/store/visualizationStore.js:71-113 | the query sent; on success the fetched list and its page with no error, on failure the list and page kept and the error text stored; loading ends |
| VisualizationStore.Store.CreateRequest | frontend/src/store/visualizationStore.js:115-141 | the new request goes first and the rest stay, or the error text is stored; the call settles with the API's answer, rethrowing its error |
| VisualizationStore.Store.DeleteRequest | frontend/src/store/visualizationStore.js:143-166 | on success exactly the entries with the id go; on failure the list read first is put back, the error text stored and the error rethrown |
| VisualizationStore.Store.RetryRequest | frontend/src/store/visualizationStore.js:168-195 | the entries with the id become the returned request, or the error text is stored and the error rethrown |
| VisualizationStore.Store.FetchScreenTypes | frontend/src/store/visualizationStore.js:197-207 | the answer is stored and returned; a failure changes nothing and returns an empty list |
| VisualizationStore.Store.SetSelectedRequest | frontend/src/store/visualizationStore.js:210-212 | only the selection changes |
| VisualizationStore.Store.ClearSelectedRequest | frontend/src/store/visualizationStore.js:214-216 | only the selection is cleared |
| VisualizationStore.Store.ClearError | frontend/src/store/visualizationStore.js:238-240 | only the error is cleared |
| VisualizationStore.Store.SetFilters | frontend/src/store/visualizationStore.js:218-222 | the filters are merged and nothing else changes |
| VisualizationStore.Store.ClearFilters | frontend/src/store/visualizationStore.js:224-226 | the initial filters, nothing else changed |
| VisualizationStore.Store.SetScope | frontend/src/store/visualizationStore.js:228-232 | one scope key set, the others kept |
| VisualizationStore.Store.ResetScope | frontend/src/store/visualizationStore.js:234-236 | the initial scope, nothing else changed |
| VisualizationStore.Store.Refresh | frontend/src/store/visualizationStore.js:267-273 | the first page with the stored filters and the screen types are fetched, each stored as its own call states |
| VisualizationStore.CreateThenDelete | frontend/src/store/visualizationStore.js:115-166 | creating a request with a new id and deleting it gives back the list |

## Left out

- The Gemini SDK calls, response-part parsing, PIL decode, encode and resize, and the debug-image and thinking-log writers. These are foreign I/O. An oracle sequence of outcomes (image, text or error tag) replaces them.
- The Django ORM, `save()` persistence, query managers, and the DRF viewset and serializer plumbing. `Save` only stamps the request; the database is not modelled.
- The background thread started by retry and regenerate in `api/views.py`. Only its mark-failed outcome is modelled, because the point of that code is concurrency.
- Floating point. Python floats and `Decimal`s are exact `real`s, so the averages of the performance tracker and the production monitor carry no rounding error.
- PdfQuotes.CalculatePoolsQuote: `int(pool_price * shape_multiplier)` (api/utils/pdf_generator.py:244) truncates the exact product, not the float one. With the float 1.15 the source quotes 57499 for a starter freeform pool and 109249 for a resort freeform pool; the model quotes 57500 and 109250.
- PdfUpgrades.WindowsUpgrades: `int(base_price * price_diff)` (api/utils/pdf_generator.py:149) truncates the exact difference and product. In floats 1.2 - 1.0 and 1.5 - 1.3 fall just below 0.2, so the source prices the vinyl-to-aluminum and fiberglass-to-wood upgrades one less than the model (89 instead of 90 at double_hung, and likewise at every base price).
- PdfUpgrades.MaterialUpgradesCostMore: the truncated difference it bounds is the exact one; the source's float difference can truncate one lower, as the line above says. The window unit price (api/utils/pdf_generator.py:344) and the roof total (api/utils/pdf_generator.py:409) are truncated exactly as well.
- `calculate_monthly_payment` and `get_financing_options`: floating-point amortisation with `round`.
- `calculate_request_cost`, `optimize_api_call_efficiency` and `estimate_processing_time`: floating-point estimators, the second of them over a PIL image.
- `ProductionMonitor.export_metrics` writes a file, and `PerformanceTracker._log_performance_summary` and `BaseAIProvider._log_request` only log. All three are I/O.
- `BaseAIProvider._handle_service_error` only builds a log record and a message dictionary. Its message text is not modelled.
- `get_specs_for_tenant` (api/utils/pdf_generator.py:559-603), `get_tenant_color`, the reportlab page builders and `generate_visualization_pdf`. They only format or draw text.
- The free-text `benefit` of each PDF upgrade and the `description` of each pricing line. Only their identities and amounts are modelled.
- The texts of log lines, alert messages and most error messages. Only the messages that callers branch on or show to the user are modelled.
- `str.lower()` and `str.title()` are ASCII-only: the model has no Unicode case mapping.
- Serializers.ValidatePhoneNumber: a digit is one of '0' to '9'. Python's `str.isdigit` (api/serializers.py:36) also accepts other Unicode digits, such as '²' or '٣', so the source accepts some numbers the model refuses.
- Serializers.PhoneAccepted: its if-and-only-if is stated over the ASCII digits '0' to '9' only, for the reason on the line above.
- Serializers.DigitsOf: it keeps only the ASCII digits. `c.isdigit()` (api/serializers.py:356) also keeps other Unicode digits.
- Serializers.ValidateLeadPhone: it counts only the ASCII digits, so a phone written with other Unicode digits can fall short of 10 in the model and not in the source.
- Serializers.ValidateZip: it counts only the ASCII digits (api/serializers.py:363), as for the lead phone.
- PoolsPricing.CalculateBaseCost: `PoolConfig` holds typed selections, each either absent or of the expected type. So a config dict with an explicit `null` or an ill-typed value cannot be written. In the source (api/pricing/calculators/pools.py:66-72), a null `deck_sqft` raises `InvalidOperation` from `Decimal(str(None))`, while a numeric string such as "650" is accepted. A null `water_features` raises `TypeError`, a string `water_features` is iterated character by character, and an unhashable `pool_size` raises `TypeError`. None of these paths is modelled.
- PoolsConfig.PublicSizes: each public pool size is reduced to its id and name. The source keeps every key except `base_price` and `gallons`, including `dimensions`, `length_ft`, `width_ft`, `sq_ft`, `prompt_hint`, `description` and `popular`. Only the absence of prices is modelled.
- PoolsConfig.GetConfig: the entries of the size, shape, finish, deck-material, deck-color and water-feature tables are reduced to id and name. The model does not carry the descriptive keys of each entry, such as `water_color`, `prompt_hint` and `description`. Nor does it carry the pass-through values `name`, `display_name`, `finishing_options`, `primary_color` and `secondary_color`. None of the omitted values carries a price, so the model's price-free result is true of the source too.
- WindowsConfig.GetConfig: the frame materials are reduced to id and name. The pass-through tables are not modelled: project, door, patio-enclosure, enclosure-glass, window-type, window-style, grille, glass, hardware and trim. Nor are `name`, `display_name` and the two colors. None of these carries a price field.
- RoofsConfig.GetConfig: the roof materials are reduced to id and name. The `roof_colors`, `solar_options` and `gutter_options` tables, `name`, `display_name` and the two colors are passed through by the source and are not modelled. None of these carries a price field.
- PromptUtils.OptimizedPrompt: `max_length` is a natural number. With a negative `max_length` the source keeps all words but the last ones (`words[:max_words]` with a negative bound), and the model cannot express that call.
- AiRegistry.ServiceRegistry.Capabilities: only the listing of available services may raise in the model. A raise from `get_provider_info` (api/ai_services/registry.py:163), which the source catches the same way, is not modelled, and the provider info itself is not carried.
- ProductionMonitor.RecentAlerts: it states newest first and a permutation, but not that alerts with equal timestamps keep their stored order, as Python's stable `sorted` does.
- The `AIServiceConfigManager` default loading from Django settings, environment variables and a JSON file. It is I/O, so the model passes the loaded entries to `LoadEntries`.
- `AIEnhancedImageProcessor._initialize_ai_services` and `_register_gemini_provider`. They only construct objects from the SDK and settings; the model passes the resulting provider in.
- `validate_image_dimensions` and the stored image dimensions. Reading the pixel size of an upload needs PIL.
- ApiClient.Client.OnResponseError: the refresh request is posted through the same client, so it is counted, carries the stored header, and its own failure passes through this handler again (a 5xx is retried, a 401 starts a nested refresh). The model takes its final answer as the `RefreshResult` parameter and does not model that nested pass. The `Promise` machinery and console logging are not modelled.
- frontend/src/store/authStore.js: the `localStorage` `try`/`catch`, the persist middleware and `onRehydrateStorage` are not modelled. The store's `persist` is a function of its state.
- frontend/src/store/visualizationStore.js: the two concurrent requests of a refresh run one after the other. Zustand's `set()` is replaced by field assignment.
- RoofsPrompts.GetPrompt: the roofs router returns `None` for an unknown step instead of raising, and the model follows the code.
- The roofs prompts module defines no screen-insertion prompt. The model has none either.
- Executor.ExecuteStep: the executor ignores `reference_insertion` steps. It dispatches only on cleanup, insertion and quality check, as the code does; the handler registry is not used.
- AuditService.PerformAuditSpec: the database checks on the created report row are not modelled. The report keeps the reply's values as the in-memory object does, so a null `vulnerabilities` reaches the processor's `len` (a `TypeError`) even where the database would first refuse the null.
- EnhancedProcessor.ProcessImage: by default the processor is composed with the corrected provider (`GeminiProvider.Generate`), so the success branch can be reached. With `providerAsWritten` it is composed with `GeminiProvider.GenerateAsWritten`, and `EnhancedProcessor.AsWrittenProcessingFails` states that every request whose photo opens and whose service exists then fails with "Error in AI processing: Gemini generation failed: Unexpected error: …".
- EnhancedProcessor.FinishSuccess: the generated images are the returned list only. When the audit's log line fails the request, the image row already saved stays in the database while the source returns `[]`.
- Views.PerformUpdate: only the validation of 'screen_type' is modelled. The serializer also validates the other submitted fields before `update` drops them, and such a refusal is not modelled.
- AuditService.PerformAudit: the keys the audit report reads differ from the keys its prompt asks for. The model follows the code, so those fields always take their defaults (`AuditService.PromptKeysIgnored`).
- StepRegistry.ReferenceFallsBack: the reference handler calls `_call_gemini_edit_with_reference`, which the visualizer does not define. The model follows the code: with a reference image the step fails with that `AttributeError`, and without one it takes the plain insertion path.

## Findings

| source | as written | input that shows it | evidently intended | confidence | as-written member | corrected member |
|---|---|---|---|---|---|---|
| api/ai_services/providers/gemini_provider.py:115-123 | `generate_screen_visualization` passes a `tenant_id` keyword to `process_pipeline`, whose signature (api/visualizer/services.py:33) has no such parameter, so the call always raises `TypeError` and the provider reports an unexpected error | any request with non-empty style preferences, e.g. tenant "pools" with the default scope | run the tenant's pipeline with the derived options and scope, and report its outcome | high (not executed) | GeminiProvider.GenerateAsWritten | GeminiProvider.Generate |
