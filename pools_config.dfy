/**
 * The pools vertical: catalog tables, the six-step pipeline and the public
 * configuration that hides every pricing field.
 */
module PoolsConfig {
  import opened Common
  import opened TenantBase

  datatype PoolSize = PoolSize(id: string, name: string, gallons: int, basePrice: real)

  function SizeId(s: PoolSize): string { s.id }

  const POOL_SIZES: seq<PoolSize> := [
    PoolSize("starter", "Starter", 10800, 50000.0),
    PoolSize("classic", "Classic", 16875, 65000.0),
    PoolSize("family", "Family", 21600, 75000.0),
    PoolSize("resort", "Resort", 27000, 95000.0)
  ]

  /** Shapes; `price` is the `price_multiplier`. */
  const POOL_SHAPES: seq<Item> := [
    Item("rectangle", "Rectangle", 1.0),
    Item("roman", "Roman", 1.05),
    Item("grecian", "Grecian", 1.05),
    Item("kidney", "Kidney", 1.10),
    Item("freeform", "Freeform", 1.15),
    Item("lazy_l", "Lazy L", 1.10),
    Item("oval", "Oval", 1.05)
  ]

  /** Interior finishes; `price` is the `price_add`. */
  const INTERIOR_FINISHES: seq<Item> := [
    Item("white_plaster", "White Plaster", 0.0),
    Item("pebble_blue", "Pebble Tec - Blue", 8000.0),
    Item("pebble_midnight", "Pebble Tec - Midnight", 9000.0),
    Item("quartz_blue", "Quartz - Ocean Blue", 6000.0),
    Item("quartz_aqua", "Quartz - Caribbean", 6000.0),
    Item("glass_tile", "Glass Tile", 15000.0)
  ]

  /** The built-in features dict, key by key as the catalog stores it. */
  const BUILT_IN_FEATURES: map<string, Dict> := map[
    "tanning_ledge" := map[
      "name" := VStr("Tanning Ledge (Baja Shelf)"),
      "description" := VStr("Shallow 4-6 inch area for lounging in the water"),
      "price_add" := VNum(4500.0),
      "prompt_hint" := VStr("a tanning ledge (Baja shelf) with 4-6 inches of water"),
      "default" := VBool(true)],
    "ledge_loungers" := map[
      "name" := VStr("Ledge Loungers"),
      "description" := VStr("In-water lounge chairs for the tanning ledge"),
      "price_per_unit" := VNum(800.0),
      "options" := VList([VNum(0.0), VNum(2.0), VNum(4.0)]),
      "default" := VNum(2.0),
      "requires" := VStr("tanning_ledge"),
      "prompt_hint" := VStr("{count} ledge lounger chairs on the tanning ledge")],
    "attached_spa" := map[
      "name" := VStr("Attached Spa (Spillover)"),
      "description" := VStr("Hot tub with water spilling into main pool"),
      "price_add" := VNum(18000.0),
      "prompt_hint" := VStr("an attached raised spa with water spilling over into the main pool"),
      "default" := VBool(false)]
  ]

  /** Deck materials; `price` is the `price_per_sqft`. */
  const DECK_MATERIALS: seq<Item> := [
    Item("travertine", "Travertine", 18.0),
    Item("pavers", "Pavers", 14.0),
    Item("brushed_concrete", "Brushed Concrete", 8.0),
    Item("stamped_concrete", "Stamped Concrete", 12.0),
    Item("flagstone", "Flagstone", 22.0),
    Item("wood", "Wood Deck", 25.0)
  ]

  /** Deck colors carry no price. */
  const DECK_COLORS: seq<Item> := [
    Item("cream", "Cream", 0.0),
    Item("tan", "Tan", 0.0),
    Item("gray", "Gray", 0.0),
    Item("terracotta", "Terracotta", 0.0),
    Item("brown", "Brown", 0.0),
    Item("natural", "Natural Stone", 0.0)
  ]

  /** Water features; `price` is the `price_add`. */
  const WATER_FEATURES: seq<Item> := [
    Item("rock_waterfall", "Rock Waterfall", 8000.0),
    Item("bubblers", "Bubblers / Fountain Jets", 2500.0),
    Item("scuppers", "Scuppers", 4500.0),
    Item("fire_bowls", "Fire Bowls", 3500.0),
    Item("deck_jets", "Deck Jets", 3000.0)
  ]

  /** A finishing option; its prompt hint decides whether it adds anything. */
  datatype Finishing = Finishing(id: string, name: string, hint: string)

  function FinishingId(f: Finishing): string { f.id }

  const LIGHTING: seq<Finishing> := [
    Finishing("none", "No Additional Lighting", ""),
    Finishing("pool_lights", "LED Pool Lights", "underwater LED pool lights visible"),
    Finishing("landscape", "Landscape Lighting", "landscape lighting around the pool area"),
    Finishing("both", "Pool + Landscape Lights", "underwater LED pool lights and landscape lighting")
  ]

  const LANDSCAPING: seq<Finishing> := [
    Finishing("none", "Existing Only", ""),
    Finishing("tropical", "Tropical Plants", "tropical landscaping with palms and flowering plants around the pool"),
    Finishing("desert", "Desert/Modern", "modern desert landscaping with ornamental grasses and succulents"),
    Finishing("natural", "Natural/Native", "natural native Texas landscaping around the pool")
  ]

  const FURNITURE: seq<Finishing> := [
    Finishing("none", "No Furniture", ""),
    Finishing("basic", "Lounge Chairs", "stylish lounge chairs on the pool deck"),
    Finishing("full", "Full Outdoor Set", "lounge chairs, side tables, and an umbrella on the pool deck")
  ]

  const PIPELINE_STEPS: seq<string> :=
    ["cleanup", "pool_shell", "deck", "water_features", "finishing", "quality_check"]

  const STEP_CONFIGS: map<string, StepConfig> := map[
    "cleanup" := CleanupStep(20, "Preparing image"),
    "pool_shell" := InsertionStep(None, "pool", 30, "Adding pool"),
    "deck" := InsertionStep(None, "deck", 20, "Adding deck"),
    "water_features" := InsertionStep(Some("water_features"), "water_features", 15, "Adding water features"),
    "finishing" := InsertionStep(Some("finishing"), "finishing", 10, "Adding finishing touches"),
    "quality_check" := QualityCheckStep(5, "Quality check")
  ]

  /**
   * `get_step_config`: every listed step has a well-formed descriptor and any
   * other name gives the empty one.
   */
  function StepConfigOf(name: string): (c: StepConfig)
    ensures name in PIPELINE_STEPS ==> WellFormedStep(c)
    ensures name !in PIPELINE_STEPS ==> c == NoConfig
  {
    if name in STEP_CONFIGS then STEP_CONFIGS[name] else NoConfig
  }

  /** The pipeline is well formed: cleanup first, quality check last, every step typed. */
  lemma PipelineWellFormed()
    ensures WellFormedPipeline(PIPELINE_STEPS, StepConfigOf)
  {
    assert Distinct(PIPELINE_STEPS);
  }

  /**
   * Pool shell and deck always run, while water features and finishing are
   * gated on same-named scope keys.
   */
  lemma StepGating()
    ensures StepConfigOf("pool_shell").scopeKey == None && StepConfigOf("deck").scopeKey == None
    ensures StepConfigOf("water_features").scopeKey == Some("water_features")
    ensures StepConfigOf("finishing").scopeKey == Some("finishing")
  {
  }

  /** The weights in pipeline order are 20, 30, 20, 15, 10, 5 and add up to 100. */
  lemma StepWeights()
    ensures Weights(PIPELINE_STEPS, StepConfigOf) == [20, 30, 20, 15, 10, 5]
    ensures SumInt(Weights(PIPELINE_STEPS, StepConfigOf)) == 100
  {
    var ws := Weights(PIPELINE_STEPS, StepConfigOf);
    assert ws == [20, 30, 20, 15, 10, 5];
    assert SumInt(ws) == 20 + SumInt([30, 20, 15, 10, 5]);
    assert SumInt([30, 20, 15, 10, 5]) == 30 + SumInt([20, 15, 10, 5]);
    assert SumInt([20, 15, 10, 5]) == 20 + SumInt([15, 10, 5]);
    assert SumInt([15, 10, 5]) == 15 + SumInt([10, 5]);
    assert SumInt([10, 5]) == 10 + SumInt([5]);
  }

  /** Pools offers no mesh, frame-color, mesh-color or opacity choices. */
  function GetChoices(): (c: Choices)
    ensures c.mesh == [] && c.frameColor == [] && c.meshColor == [] && c.opacity == []
  {
    Choices([], [], [], [])
  }

  /** A pool size as the full dict. */
  function SizeRecord(s: PoolSize): Dict
  {
    map["id" := VStr(s.id), "name" := VStr(s.name), "gallons" := VNum(s.gallons as real),
        "base_price" := VNum(s.basePrice)]
  }

  /** The catalog handed to API clients and the one kept for pricing. */
  datatype Catalog = Catalog(
    poolSizes: seq<Dict>,
    poolShapes: seq<Dict>,
    interiorFinishes: seq<Dict>,
    builtInFeatures: map<string, Dict>,
    deckMaterials: seq<Dict>,
    deckColors: seq<Dict>,
    waterFeatures: seq<Dict>,
    pipelineSteps: seq<string>)

  /** `{k: v for k, v in d.items() if 'price' not in k}`. */
  function DropPriceKeys(d: Dict): (r: Dict)
    ensures forall k :: k in r <==> k in d && !Contains(k, "price")
    ensures forall k :: k in r ==> r[k] == d[k]
  {
    map k | k in d && !Contains(k, "price") :: d[k]
  }

  /** The pricing keys `get_config` removes. */
  const PRICE_KEYS: set<string> := {"base_price", "gallons", "price_multiplier", "price_add", "price_per_sqft"}

  /** No dict in the catalog holds a pricing key, and no built-in key mentions 'price'. */
  predicate PriceFree(c: Catalog)
  {
    && (forall i :: 0 <= i < |c.poolSizes| ==> c.poolSizes[i].Keys !! PRICE_KEYS)
    && (forall i :: 0 <= i < |c.poolShapes| ==> c.poolShapes[i].Keys !! PRICE_KEYS)
    && (forall i :: 0 <= i < |c.interiorFinishes| ==> c.interiorFinishes[i].Keys !! PRICE_KEYS)
    && (forall i :: 0 <= i < |c.deckMaterials| ==> c.deckMaterials[i].Keys !! PRICE_KEYS)
    && (forall i :: 0 <= i < |c.waterFeatures| ==> c.waterFeatures[i].Keys !! PRICE_KEYS)
    && (forall f, k :: f in c.builtInFeatures && k in c.builtInFeatures[f] ==> !Contains(k, "price"))
  }

  /** The sizes table without `base_price` and `gallons`. */
  function PublicSizes(): (rs: seq<Dict>)
    ensures |rs| == |POOL_SIZES|
    ensures forall i :: 0 <= i < |POOL_SIZES| ==>
      rs[i] == map["id" := VStr(POOL_SIZES[i].id), "name" := VStr(POOL_SIZES[i].name)]
  {
    seq(|POOL_SIZES|, i requires 0 <= i < |POOL_SIZES| =>
      var r := Strip(SizeRecord(POOL_SIZES[i]), {"base_price", "gallons"});
      assert r.Keys == {"id", "name"};
      r)
  }

  /** The built-in features, each without the keys that mention 'price'. */
  function PublicBuiltIns(): (m: map<string, Dict>)
    ensures m.Keys == BUILT_IN_FEATURES.Keys
    ensures forall f :: f in m ==> m[f] == DropPriceKeys(BUILT_IN_FEATURES[f])
  {
    map f | f in BUILT_IN_FEATURES :: DropPriceKeys(BUILT_IN_FEATURES[f])
  }

  /**
   * `get_config`: every table keeps its entries in order, with ids and names,
   * and loses its pricing fields.
   */
  function GetConfig(): (c: Catalog)
    ensures PriceFree(c)
    ensures |c.poolSizes| == |POOL_SIZES| && |c.waterFeatures| == |WATER_FEATURES|
    ensures forall i :: 0 <= i < |POOL_SIZES| ==>
      c.poolSizes[i] == map["id" := VStr(POOL_SIZES[i].id), "name" := VStr(POOL_SIZES[i].name)]
    ensures |c.poolShapes| == |POOL_SHAPES|
    ensures forall i :: 0 <= i < |POOL_SHAPES| ==> c.poolShapes[i] == PublicRecord(POOL_SHAPES[i])
    ensures c.builtInFeatures.Keys == BUILT_IN_FEATURES.Keys
    ensures c.pipelineSteps == PIPELINE_STEPS
  {
    var sizes := PublicSizes();
    IdNamePriceFree(sizes);
    StrippedPriceFree(POOL_SHAPES, "price_multiplier");
    StrippedPriceFree(INTERIOR_FINISHES, "price_add");
    StrippedPriceFree(DECK_MATERIALS, "price_per_sqft");
    StrippedPriceFree(WATER_FEATURES, "price_add");
    Catalog(
      sizes,
      StripTable(POOL_SHAPES, "price_multiplier"),
      StripTable(INTERIOR_FINISHES, "price_add"),
      PublicBuiltIns(),
      StripTable(DECK_MATERIALS, "price_per_sqft"),
      seq(|DECK_COLORS|, i requires 0 <= i < |DECK_COLORS| => PublicRecord(DECK_COLORS[i])),
      StripTable(WATER_FEATURES, "price_add"),
      PIPELINE_STEPS)
  }

  /** A table of `{id, name}` dicts holds no pricing key. */
  lemma IdNamePriceFree(rs: seq<Dict>)
    requires forall i :: 0 <= i < |rs| ==> rs[i].Keys == {"id", "name"}
    ensures forall i :: 0 <= i < |rs| ==> rs[i].Keys !! PRICE_KEYS
  {
  }

  /** A stripped table holds no pricing key. */
  lemma StrippedPriceFree(table: seq<Item>, priceKey: string)
    requires priceKey != "id" && priceKey != "name"
    ensures forall i :: 0 <= i < |table| ==> StripTable(table, priceKey)[i].Keys !! PRICE_KEYS
  {
    var rs := StripTable(table, priceKey);
    forall i | 0 <= i < |table|
      ensures rs[i].Keys !! PRICE_KEYS
    {
      assert rs[i].Keys == {"id", "name"};
    }
  }

  /** `get_full_config_with_pricing`: the same tables with every pricing field present. */
  function GetFullConfig(): (c: Catalog)
    ensures forall i :: 0 <= i < |c.poolSizes| ==> "base_price" in c.poolSizes[i] && "gallons" in c.poolSizes[i]
    ensures forall i :: 0 <= i < |c.deckMaterials| ==> "price_per_sqft" in c.deckMaterials[i]
    ensures c.builtInFeatures == BUILT_IN_FEATURES
  {
    Catalog(
      seq(|POOL_SIZES|, i requires 0 <= i < |POOL_SIZES| => SizeRecord(POOL_SIZES[i])),
      seq(|POOL_SHAPES|, i requires 0 <= i < |POOL_SHAPES| => PricedRecord(POOL_SHAPES[i], "price_multiplier")),
      seq(|INTERIOR_FINISHES|, i requires 0 <= i < |INTERIOR_FINISHES| => PricedRecord(INTERIOR_FINISHES[i], "price_add")),
      BUILT_IN_FEATURES,
      seq(|DECK_MATERIALS|, i requires 0 <= i < |DECK_MATERIALS| => PricedRecord(DECK_MATERIALS[i], "price_per_sqft")),
      seq(|DECK_COLORS|, i requires 0 <= i < |DECK_COLORS| => PublicRecord(DECK_COLORS[i])),
      seq(|WATER_FEATURES|, i requires 0 <= i < |WATER_FEATURES| => PricedRecord(WATER_FEATURES[i], "price_add")),
      PIPELINE_STEPS)
  }
}
