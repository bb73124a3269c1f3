/**
 * The pools prompt builders. The wording of each prompt is opaque; what is
 * modelled is which catalog entries a prompt describes, which optional
 * sections it carries, and when a builder returns `None` or raises.
 */
module PoolsPrompts {
  import opened Common
  import opened TenantBase
  import opened PoolsConfig

  /** A built-in feature line of the pool-shell prompt. */
  datatype BuiltIn = TanningLedge | Loungers(count: Val) | AttachedSpa

  /** What a reference-insertion prompt says about the product. */
  datatype ProductDesc =
    | PoolDesc(shape: Val, finish: Val)
    | DeckDesc(material: Val, color: Val)
    | FeatureDesc(featureType: Val)

  /** A pools prompt: the builder that produced it and the facts it embeds. */
  datatype Prompt =
    | Cleanup
    | PoolShell(size: PoolSize, shape: Item, finish: Item, features: seq<BuiltIn>)
    | Deck(material: Item, color: Item)
    | WaterFeatures(selected: seq<Item>)
    | FinishingTouches(additions: seq<string>)
    | QualityCheck(featureChecks: bool)
    | Reference(featureType: Val, product: ProductDesc)

  /** `get_cleanup_prompt`. */
  function CleanupPrompt(): Prompt
  {
    Cleanup
  }

  function SelectedSize(sel: Dict): PoolSize
  {
    FindById(POOL_SIZES, SizeId, Get(sel, "size", VStr("classic")), POOL_SIZES[1])
  }

  function SelectedShape(sel: Dict): Item
  {
    FindById(POOL_SHAPES, ItemId, Get(sel, "shape", VStr("rectangle")), POOL_SHAPES[0])
  }

  function SelectedFinish(sel: Dict): Item
  {
    FindById(INTERIOR_FINISHES, ItemId, Get(sel, "finish", VStr("pebble_blue")), INTERIOR_FINISHES[1])
  }

  /**
   * The pool-size lookup: a known id selects its own entry; a missing or
   * unknown one falls back to the classic size, which is also the default.
   */
  lemma SizeLookup(sel: Dict)
    ensures HasId(POOL_SIZES, SizeId, Get(sel, "size", VStr("classic"))) ==>
      Get(sel, "size", VStr("classic")) == VStr(SelectedSize(sel).id) && SelectedSize(sel) in POOL_SIZES
    ensures !HasId(POOL_SIZES, SizeId, Get(sel, "size", VStr("classic"))) ==> SelectedSize(sel) == POOL_SIZES[1]
    ensures "size" !in sel ==> SelectedSize(sel) == POOL_SIZES[1]
  {
    FindByIdSpec(POOL_SIZES, SizeId, Get(sel, "size", VStr("classic")), POOL_SIZES[1]);
    if "size" !in sel {
      assert SizeId(POOL_SIZES[0]) == "starter";
    }
  }

  /** The shape lookup: a known id selects its entry; otherwise the rectangle, also the default. */
  lemma ShapeLookup(sel: Dict)
    ensures HasId(POOL_SHAPES, ItemId, Get(sel, "shape", VStr("rectangle"))) ==>
      Get(sel, "shape", VStr("rectangle")) == VStr(SelectedShape(sel).id) && SelectedShape(sel) in POOL_SHAPES
    ensures !HasId(POOL_SHAPES, ItemId, Get(sel, "shape", VStr("rectangle"))) ==> SelectedShape(sel) == POOL_SHAPES[0]
    ensures "shape" !in sel ==> SelectedShape(sel) == POOL_SHAPES[0]
  {
    FindByIdSpec(POOL_SHAPES, ItemId, Get(sel, "shape", VStr("rectangle")), POOL_SHAPES[0]);
    if "shape" !in sel {
      assert ItemId(POOL_SHAPES[0]) == "rectangle";
    }
  }

  /** The finish lookup: a known id selects its entry; otherwise Pebble Tec blue, also the default. */
  lemma FinishLookup(sel: Dict)
    ensures HasId(INTERIOR_FINISHES, ItemId, Get(sel, "finish", VStr("pebble_blue"))) ==>
      Get(sel, "finish", VStr("pebble_blue")) == VStr(SelectedFinish(sel).id) && SelectedFinish(sel) in INTERIOR_FINISHES
    ensures !HasId(INTERIOR_FINISHES, ItemId, Get(sel, "finish", VStr("pebble_blue"))) ==>
      SelectedFinish(sel) == INTERIOR_FINISHES[1]
    ensures "finish" !in sel ==> SelectedFinish(sel) == INTERIOR_FINISHES[1]
  {
    FindByIdSpec(INTERIOR_FINISHES, ItemId, Get(sel, "finish", VStr("pebble_blue")), INTERIOR_FINISHES[1]);
    if "finish" !in sel {
      assert ItemId(INTERIOR_FINISHES[0]) == "white_plaster";
    }
  }

  /**
   * `get_pool_shell_prompt`. The tanning ledge is on unless its selection is
   * falsy; the lounger line needs the ledge and `lounger_count > 0` (default
   * 2), a comparison that raises TypeError for a count that is neither a
   * number nor a bool; the spa is off unless its selection is truthy.
   */
  function PoolShellPrompt(sel: Dict): (r: Result<Prompt, PyError>)
    ensures r.Err? <==>
      Truthy(Get(sel, "tanning_ledge", VBool(true))) && PyPositive(Get(sel, "lounger_count", VNum(2.0))).Err?
    ensures r.Ok? ==> r.value.PoolShell?
    ensures r.Ok? ==> (TanningLedge in r.value.features <==> Truthy(Get(sel, "tanning_ledge", VBool(true))))
    ensures r.Ok? ==> (AttachedSpa in r.value.features <==> Truthy(Get(sel, "attached_spa", VBool(false))))
    ensures r.Ok? ==>
      ((exists c :: Loungers(c) in r.value.features) <==>
        Truthy(Get(sel, "tanning_ledge", VBool(true))) && PyPositive(Get(sel, "lounger_count", VNum(2.0))) == Ok(true))
    ensures r.Ok? ==> (r.value.features == [] <==>
      !Truthy(Get(sel, "tanning_ledge", VBool(true))) && !Truthy(Get(sel, "attached_spa", VBool(false))))
    ensures r.Ok? ==>
      r.value.size == SelectedSize(sel) && r.value.shape == SelectedShape(sel) && r.value.finish == SelectedFinish(sel)
  {
    var spa: seq<BuiltIn> := if Truthy(Get(sel, "attached_spa", VBool(false))) then [AttachedSpa] else [];
    if Truthy(Get(sel, "tanning_ledge", VBool(true))) then
      var count := Get(sel, "lounger_count", VNum(2.0));
      match PyPositive(count)
      case Err(e) => Err(e)
      case Ok(positive) =>
        var loungers: seq<BuiltIn> := if positive then [Loungers(count)] else [];
        var features := [TanningLedge] + loungers + spa;
        assert positive ==> features[1] == Loungers(count);
        Ok(PoolShell(SelectedSize(sel), SelectedShape(sel), SelectedFinish(sel), features))
    else
      Ok(PoolShell(SelectedSize(sel), SelectedShape(sel), SelectedFinish(sel), spa))
  }

  /** With no selections at all the shell is the classic rectangle with ledge and two loungers. */
  lemma PoolShellDefaults()
    ensures PoolShellPrompt(map[]) ==
      Ok(PoolShell(POOL_SIZES[1], POOL_SHAPES[0], INTERIOR_FINISHES[1], [TanningLedge, Loungers(VNum(2.0))]))
  {
    var sel: Dict := map[];
    SizeLookup(sel);
    ShapeLookup(sel);
    FinishLookup(sel);
    assert Get(sel, "lounger_count", VNum(2.0)) == VNum(2.0);
    assert Get(sel, "tanning_ledge", VBool(true)) == VBool(true);
    assert Get(sel, "attached_spa", VBool(false)) == VBool(false);
    assert [TanningLedge] + [Loungers(VNum(2.0))] + [] == [TanningLedge, Loungers(VNum(2.0))];
  }

  /** `get_deck_prompt`: unknown or missing ids fall back to travertine and cream. */
  function DeckPrompt(sel: Dict): (r: Prompt)
    ensures r.Deck?
    ensures !HasId(DECK_MATERIALS, ItemId, Get(sel, "deck_material", VStr("travertine"))) ==>
      r.material == DECK_MATERIALS[0]
    ensures HasId(DECK_MATERIALS, ItemId, Get(sel, "deck_material", VStr("travertine"))) ==>
      Get(sel, "deck_material", VStr("travertine")) == VStr(r.material.id)
    ensures !HasId(DECK_COLORS, ItemId, Get(sel, "deck_color", VStr("cream"))) ==> r.color == DECK_COLORS[0]
    ensures HasId(DECK_COLORS, ItemId, Get(sel, "deck_color", VStr("cream"))) ==>
      Get(sel, "deck_color", VStr("cream")) == VStr(r.color.id)
  {
    var material := Get(sel, "deck_material", VStr("travertine"));
    var color := Get(sel, "deck_color", VStr("cream"));
    FindByIdSpec(DECK_MATERIALS, ItemId, material, DECK_MATERIALS[0]);
    FindByIdSpec(DECK_COLORS, ItemId, color, DECK_COLORS[0]);
    Deck(FindById(DECK_MATERIALS, ItemId, material, DECK_MATERIALS[0]),
         FindById(DECK_COLORS, ItemId, color, DECK_COLORS[0]))
  }

  /** `[f for f in table if f['id'] in sel]`, raising what `in` raises. */
  function SelectIn(table: seq<Item>, sel: Val): Result<seq<Item>, PyError>
  {
    if table == [] then Ok([])
    else
      match PyIn(VStr(table[0].id), sel)
      case Err(e) => Err(e)
      case Ok(keep) =>
        match SelectIn(table[1..], sel)
        case Err(e) => Err(e)
        case Ok(rest) => Ok(if keep then [table[0]] + rest else rest)
  }

  /**
   * Filtering by a list selection never raises and keeps exactly the catalog
   * entries whose id is listed, in catalog order.
   */
  lemma {:induction false} SelectInList(table: seq<Item>, items: seq<Val>)
    ensures SelectIn(table, VList(items)).Ok?
    ensures forall f :: f in SelectIn(table, VList(items)).value <==> f in table && VStr(f.id) in items
    ensures IsSubsequence(SelectIn(table, VList(items)).value, table)
    decreases |table|
  {
    if table != [] {
      SelectInList(table[1..], items);
      var rest := SelectIn(table[1..], VList(items)).value;
      assert table == [table[0]] + table[1..];
      if VStr(table[0].id) in items {
        assert SelectIn(table, VList(items)).value == [table[0]] + rest;
        assert ([table[0]] + rest)[1..] == rest;
      } else {
        assert SelectIn(table, VList(items)).value == rest;
        SubsequenceSkip(rest, table);
      }
    }
  }

  /**
   * A selection that is not a list, a string or a dict makes the filter
   * raise TypeError as soon as the catalog is non-empty.
   */
  lemma SelectInNotIterable(table: seq<Item>, sel: Val)
    requires table != [] && !(sel.VList? || sel.VStr? || sel.VObj?)
    ensures SelectIn(table, sel).Err? && SelectIn(table, sel).error.TypeError?
  {
  }

  /** `get_water_features_prompt`: `None` for a falsy selection or one that matches nothing. */
  function WaterFeaturesPrompt(sel: Dict): (r: Result<Option<Prompt>, PyError>)
    ensures !Truthy(Get(sel, "water_features", VList([]))) ==> r == Ok(None)
    ensures r.Ok? && r.value.Some? ==> r.value.value.WaterFeatures? && r.value.value.selected != []
  {
    var selected := Get(sel, "water_features", VList([]));
    if !Truthy(selected) then Ok(None)
    else
      match SelectIn(WATER_FEATURES, selected)
      case Err(e) => Err(e)
      case Ok(features) => if features == [] then Ok(None) else Ok(Some(WaterFeatures(features)))
  }

  /**
   * For a list of ids the water-features prompt never raises; it is `None`
   * iff no listed id names a catalog feature, and otherwise it lists exactly
   * the named features, in catalog order.
   */
  lemma WaterFeaturesSpec(sel: Dict, items: seq<Val>)
    requires Get(sel, "water_features", VList([])) == VList(items)
    ensures WaterFeaturesPrompt(sel).Ok?
    ensures WaterFeaturesPrompt(sel).value.None? <==>
      forall f :: f in WATER_FEATURES ==> VStr(f.id) !in items
    ensures WaterFeaturesPrompt(sel).value.Some? ==>
      var fs := WaterFeaturesPrompt(sel).value.value.selected;
      IsSubsequence(fs, WATER_FEATURES) &&
      forall f :: f in fs <==> f in WATER_FEATURES && VStr(f.id) in items
  {
    SelectInList(WATER_FEATURES, items);
    var fs := SelectIn(WATER_FEATURES, VList(items)).value;
    if items == [] {
      assert !Truthy(VList(items));
    } else if fs == [] {
      assert forall f :: f in WATER_FEATURES ==> VStr(f.id) !in items;
    } else {
      assert fs[0] in fs;
    }
  }

  function SelectedLighting(sel: Dict): Finishing
  {
    FindById(LIGHTING, FinishingId, Get(sel, "lighting", VStr("none")), LIGHTING[0])
  }

  function SelectedLandscaping(sel: Dict): Finishing
  {
    FindById(LANDSCAPING, FinishingId, Get(sel, "landscaping", VStr("none")), LANDSCAPING[0])
  }

  function SelectedFurniture(sel: Dict): Finishing
  {
    FindById(FURNITURE, FinishingId, Get(sel, "furniture", VStr("none")), FURNITURE[0])
  }

  /** The prompt hint of a finishing entry, when it has one. */
  function HintOf(f: Finishing): seq<string>
  {
    if f.hint != "" then [f.hint] else []
  }

  /** `get_finishing_prompt`: the non-empty hints in order; `None` when there are none. */
  function FinishingPrompt(sel: Dict): (r: Option<Prompt>)
    ensures r.Some? ==> r.value.FinishingTouches? && 1 <= |r.value.additions| <= 3
    ensures r.Some? ==> forall i :: 0 <= i < |r.value.additions| ==> r.value.additions[i] != ""
  {
    var additions := HintOf(SelectedLighting(sel)) + HintOf(SelectedLandscaping(sel)) + HintOf(SelectedFurniture(sel));
    if additions == [] then None else Some(FinishingTouches(additions))
  }

  /** The selected value names an option of `table` other than its first, hint-less entry. */
  predicate PicksHinted(table: seq<Finishing>, v: Val)
  {
    exists i :: 1 <= i < |table| && v == VStr(table[i].id)
  }

  /**
   * A finishing table's lookup has a hint iff the selection names one of the
   * entries after the first; a missing or unknown id falls back to the
   * first entry, whose hint is empty.
   */
  lemma FinishingLookup(table: seq<Finishing>, v: Val)
    requires |table| >= 1 && table[0].hint == ""
    requires forall i :: 1 <= i < |table| ==> table[i].hint != "" && table[i].id != table[0].id
    ensures FindById(table, FinishingId, v, table[0]).hint != "" <==> PicksHinted(table, v)
  {
    FindByIdSpec(table, FinishingId, v, table[0]);
    if PicksHinted(table, v) {
      var i :| 1 <= i < |table| && v == VStr(table[i].id);
      assert v == VStr(FinishingId(table[i]));
      var k :| 0 <= k < |table| && v == VStr(FinishingId(table[k])) &&
        FindById(table, FinishingId, v, table[0]) == table[k] &&
        forall j :: 0 <= j < k ==> v != VStr(FinishingId(table[j]));
      assert k != 0;
    } else if HasId(table, FinishingId, v) {
      var k :| 0 <= k < |table| && v == VStr(FinishingId(table[k])) &&
        FindById(table, FinishingId, v, table[0]) == table[k];
      assert k == 0;
    }
  }

  /**
   * The finishing prompt is `None` iff none of lighting, landscaping and
   * furniture names an option other than the empty-hint 'none' entry; in
   * particular it is `None` when all three are missing or unknown.
   */
  lemma FinishingSpec(sel: Dict)
    ensures FinishingPrompt(sel).None? <==>
      && !PicksHinted(LIGHTING, Get(sel, "lighting", VStr("none")))
      && !PicksHinted(LANDSCAPING, Get(sel, "landscaping", VStr("none")))
      && !PicksHinted(FURNITURE, Get(sel, "furniture", VStr("none")))
  {
    FinishingLookup(LIGHTING, Get(sel, "lighting", VStr("none")));
    FinishingLookup(LANDSCAPING, Get(sel, "landscaping", VStr("none")));
    FinishingLookup(FURNITURE, Get(sel, "furniture", VStr("none")));
  }

  /**
   * `get_quality_check_prompt`: the FEATURES section appears iff water
   * features are selected, the spa is on, or the tanning ledge is on, which
   * it is unless explicitly falsy.
   */
  function QualityCheckPrompt(selections: Option<Dict>): (r: Prompt)
    ensures r.QualityCheck?
    ensures selections.None? ==> r.featureChecks
    ensures selections.Some? && "tanning_ledge" !in selections.value ==> r.featureChecks
    ensures !r.featureChecks ==> selections.Some? && !Truthy(selections.value["tanning_ledge"])
  {
    var s := OrEmpty(selections);
    QualityCheck(
      || Truthy(GetOpt(s, "water_features"))
      || Truthy(Get(s, "attached_spa", VBool(false)))
      || Truthy(Get(s, "tanning_ledge", VBool(true))))
  }

  /** The FEATURES section is left out only when all three feature selections are falsy. */
  lemma QualityFeatureChecks(s: Dict)
    ensures !QualityCheckPrompt(Some(s)).featureChecks <==>
      && !Truthy(GetOpt(s, "water_features"))
      && !Truthy(Get(s, "attached_spa", VBool(false)))
      && "tanning_ledge" in s && !Truthy(s["tanning_ledge"])
  {
  }

  /**
   * `get_prompt`: the six pipeline steps dispatch to their builders with
   * `selections or {}`; any other step raises ValueError.
   */
  function GetPrompt(step: string, selections: Option<Dict>): (r: Result<Option<Prompt>, PyError>)
    ensures step !in PIPELINE_STEPS ==> r.Err? && r.error.ValueError?
    ensures step in {"cleanup", "deck", "finishing", "quality_check"} ==> r.Ok?
  {
    var sel := OrEmpty(selections);
    if step == "cleanup" then Ok(Some(CleanupPrompt()))
    else if step == "pool_shell" then
      (match PoolShellPrompt(sel) case Err(e) => Err(e) case Ok(p) => Ok(Some(p)))
    else if step == "deck" then Ok(Some(DeckPrompt(sel)))
    else if step == "water_features" then WaterFeaturesPrompt(sel)
    else if step == "finishing" then Ok(FinishingPrompt(sel))
    else if step == "quality_check" then Ok(Some(QualityCheckPrompt(selections)))
    else Err(ValueError("Unknown pipeline step: " + step))
  }

  /**
   * `get_screen_insertion_prompt`, the entry point the pipeline executor
   * uses: whatever feature is asked for, the answer is the pool-shell prompt.
   */
  function ScreenInsertionPrompt(featureType: Val, options: Dict): Result<Prompt, PyError>
  {
    PoolShellPrompt(options)
  }

  /** The feature type plays no part: two features give the same prompt. */
  lemma ScreenInsertionIgnoresFeature(f1: Val, f2: Val, options: Dict)
    ensures ScreenInsertionPrompt(f1, options) == ScreenInsertionPrompt(f2, options)
    ensures ScreenInsertionPrompt(f1, options).Ok? ==> ScreenInsertionPrompt(f1, options).value.PoolShell?
  {
  }

  /**
   * `get_reference_insertion_prompt`: the product description is the shape
   * and finish for 'pool', material and color for 'deck', and the feature
   * type itself otherwise.
   */
  function ReferenceInsertionPrompt(featureType: Val, options: Dict): (r: Prompt)
    ensures r.Reference? && r.featureType == featureType
    ensures featureType == VStr("pool") ==>
      r.product == PoolDesc(Get(options, "pool_shape", VStr("rectangular")), Get(options, "interior_finish", VStr("plaster")))
    ensures featureType == VStr("deck") ==>
      r.product == DeckDesc(Get(options, "deck_material", VStr("travertine")), Get(options, "deck_color", VStr("cream")))
    ensures featureType != VStr("pool") && featureType != VStr("deck") ==> r.product == FeatureDesc(featureType)
  {
    var desc :=
      if featureType == VStr("pool") then
        PoolDesc(Get(options, "pool_shape", VStr("rectangular")), Get(options, "interior_finish", VStr("plaster")))
      else if featureType == VStr("deck") then
        DeckDesc(Get(options, "deck_material", VStr("travertine")), Get(options, "deck_color", VStr("cream")))
      else FeatureDesc(featureType);
    Reference(featureType, desc)
  }
}
