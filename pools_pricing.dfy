/**
 * `PoolsPricingCalculator`: the material cost of a pool from its size,
 * shape, interior finish, deck and features, labor and equipment as fixed
 * shares of it, and the line items that itemise the material cost.
 */
module PoolsPricing {
  import opened Common
  import opened PricingBase

  datatype PoolSize = PoolSize(name: string, dimensions: string, basePrice: real)
  datatype Shape = Shape(name: string, multiplier: real)
  /** An interior finish, water feature or built-in feature: a name and what it adds. */
  datatype AddOn = AddOn(name: string, priceAdd: real)
  datatype DeckMaterial = DeckMaterial(name: string, pricePerSqft: real)

  /** `POOL_SIZES`: the known sizes by id. */
  function SizeEntry(id: string): Option<PoolSize>
  {
    match id
    case "starter" => Some(PoolSize("Starter", "12x24", 50000.0))
    case "classic" => Some(CLASSIC)
    case "family" => Some(PoolSize("Family", "16x36", 75000.0))
    case "resort" => Some(PoolSize("Resort", "18x40", 95000.0))
    case _ => None
  }

  /** `POOL_SHAPES`: the known shapes by id. */
  function ShapeEntry(id: string): Option<Shape>
  {
    match id
    case "rectangle" => Some(RECTANGLE)
    case "roman" => Some(Shape("Roman", 1.05))
    case "grecian" => Some(Shape("Grecian", 1.05))
    case "kidney" => Some(Shape("Kidney", 1.10))
    case "freeform" => Some(Shape("Freeform", 1.15))
    case "lazy_l" => Some(Shape("Lazy L", 1.10))
    case "oval" => Some(Shape("Oval", 1.05))
    case _ => None
  }

  /** `INTERIOR_FINISHES`: the known finishes by id. */
  function InteriorEntry(id: string): Option<AddOn>
  {
    match id
    case "white_plaster" => Some(WHITE_PLASTER)
    case "pebble_blue" => Some(AddOn("Pebble Tec - Blue", 8000.0))
    case "pebble_midnight" => Some(AddOn("Pebble Tec - Midnight", 9000.0))
    case "quartz_blue" => Some(AddOn("Quartz - Ocean Blue", 6000.0))
    case "quartz_aqua" => Some(AddOn("Quartz - Caribbean", 6000.0))
    case "glass_tile" => Some(AddOn("Glass Tile", 15000.0))
    case _ => None
  }

  /** `DECK_MATERIALS`: the known deck materials by id. */
  function DeckEntry(id: string): Option<DeckMaterial>
  {
    match id
    case "travertine" => Some(TRAVERTINE)
    case "pavers" => Some(DeckMaterial("Pavers", 14.0))
    case "brushed_concrete" => Some(DeckMaterial("Brushed Concrete", 8.0))
    case "stamped_concrete" => Some(DeckMaterial("Stamped Concrete", 12.0))
    case "flagstone" => Some(DeckMaterial("Flagstone", 22.0))
    case "wood" => Some(DeckMaterial("Wood Deck", 25.0))
    case _ => None
  }

  /** `WATER_FEATURES`: the known water features by id. */
  function WaterEntry(id: string): Option<AddOn>
  {
    match id
    case "rock_waterfall" => Some(AddOn("Rock Waterfall", 8000.0))
    case "bubblers" => Some(AddOn("Bubblers / Fountain Jets", 2500.0))
    case "scuppers" => Some(AddOn("Scuppers", 4500.0))
    case "fire_bowls" => Some(AddOn("Fire Bowls", 3500.0))
    case "deck_jets" => Some(AddOn("Deck Jets", 3000.0))
    case _ => None
  }

  /** `BUILT_IN_FEATURES`: the known built-in features by id. */
  function BuiltInEntry(id: string): Option<AddOn>
  {
    match id
    case "tanning_ledge" => Some(AddOn("Tanning Ledge (Baja Shelf)", 4500.0))
    case "attached_spa" => Some(AddOn("Attached Spa (Spillover)", 18000.0))
    case _ => None
  }

  /** The entries an unknown or absent selection falls back to. */
  const CLASSIC := PoolSize("Classic", "15x30", 65000.0)
  const RECTANGLE := Shape("Rectangle", 1.00)
  const WHITE_PLASTER := AddOn("White Plaster", 0.0)
  const TRAVERTINE := DeckMaterial("Travertine", 18.0)

  /**
   * The selections a pool price reads; an absent one takes its default.
   * The built-in features are the dict's (id, enabled) items in order.
   */
  datatype PoolConfig = PoolConfig(
    poolSize: Option<string>,
    shape: Option<string>,
    interiorFinish: Option<string>,
    deckMaterial: Option<string>,
    deckSqft: Option<real>,
    waterFeatures: Option<seq<string>>,
    builtInFeatures: Option<seq<(string, Val)>>)

  /** A configuration that selects nothing. */
  const NO_SELECTION := PoolConfig(None, None, None, None, None, None, None)

  function OrElse<T>(o: Option<T>, dflt: T): T
  {
    if o.Some? then o.value else dflt
  }

  // ---------------------------------------------------------------------
  // Selections
  // ---------------------------------------------------------------------

  /** The size: the selected one when known, else classic. */
  function SelectedSize(id: Option<string>): PoolSize
  {
    var e := SizeEntry(OrElse(id, "classic"));
    if e.Some? then e.value else CLASSIC
  }

  /** The shape: the selected one when known, else the rectangle. */
  function SelectedShape(id: Option<string>): Shape
  {
    var e := ShapeEntry(OrElse(id, "rectangle"));
    if e.Some? then e.value else RECTANGLE
  }

  /** The interior finish: the selected one when known, else white plaster. */
  function SelectedInterior(id: Option<string>): AddOn
  {
    var e := InteriorEntry(OrElse(id, "white_plaster"));
    if e.Some? then e.value else WHITE_PLASTER
  }

  /** The deck material: the selected one when known, else travertine. */
  function SelectedDeck(id: Option<string>): DeckMaterial
  {
    var e := DeckEntry(OrElse(id, "travertine"));
    if e.Some? then e.value else TRAVERTINE
  }

  function WaterFeatureIds(cfg: PoolConfig): seq<string>
  {
    OrElse(cfg.waterFeatures, [])
  }

  function BuiltIns(cfg: PoolConfig): seq<(string, Val)>
  {
    OrElse(cfg.builtInFeatures, [])
  }

  // ---------------------------------------------------------------------
  // calculate_base_cost
  // ---------------------------------------------------------------------

  /** The pool shell: the size's base price times the shape's multiplier. */
  function PoolCost(size: Option<string>, shape: Option<string>): real
  {
    SelectedSize(size).basePrice * SelectedShape(shape).multiplier
  }

  /** The deck: its area, 600 square feet unless given, times the material's price per square foot. */
  function DeckCost(deck: Option<string>, sqft: Option<real>): real
  {
    OrElse(sqft, 600.0) * SelectedDeck(deck).pricePerSqft
  }

  /** What one listed water feature adds: nothing when the id is unknown. */
  function WaterAdd(id: string): real
  {
    var e := WaterEntry(id);
    if e.Some? then e.value.priceAdd else 0.0
  }

  /** What one built-in feature adds: nothing when it is disabled or unknown. */
  function BuiltInAdd(id: string, enabled: Val): real
  {
    var e := BuiltInEntry(id);
    if Truthy(enabled) && e.Some? then e.value.priceAdd else 0.0
  }

  /** What the listed water features add. */
  function WaterCost(ids: seq<string>): real
  {
    if ids == [] then 0.0 else WaterCost(ids[..|ids| - 1]) + WaterAdd(ids[|ids| - 1])
  }

  /** What the enabled built-in features add. */
  function BuiltInCost(items: seq<(string, Val)>): real
  {
    if items == [] then 0.0
    else BuiltInCost(items[..|items| - 1]) + BuiltInAdd(items[|items| - 1].0, items[|items| - 1].1)
  }

  /** The total material cost. */
  function Material(cfg: PoolConfig): real
  {
    PoolCost(cfg.poolSize, cfg.shape) + SelectedInterior(cfg.interiorFinish).priceAdd +
      DeckCost(cfg.deckMaterial, cfg.deckSqft) + WaterCost(WaterFeatureIds(cfg)) + BuiltInCost(BuiltIns(cfg))
  }

  /** The cost breakdown: material, then labor at 35 % and equipment at 10 % of it. */
  function BaseCostOf(cfg: PoolConfig): seq<(string, real)>
  {
    [("material", Material(cfg)), ("labor", Material(cfg) * 0.35), ("equipment", Material(cfg) * 0.10)]
  }

  /** The water features' share of `calculate_base_cost`, one feature at a time. */
  method SumWaterFeatures(ids: seq<string>) returns (waterCost: real)
    ensures waterCost == WaterCost(ids)
  {
    waterCost := 0.0;
    var k := 0;
    while k < |ids|
      invariant 0 <= k <= |ids|
      invariant waterCost == WaterCost(ids[..k])
    {
      assert ids[..k + 1][..k] == ids[..k];
      var e := WaterEntry(ids[k]);
      if e.Some? {
        waterCost := waterCost + e.value.priceAdd;
      }
      k := k + 1;
    }
    assert ids[..|ids|] == ids;
  }

  /** The built-in features' share of `calculate_base_cost`, one feature at a time. */
  method SumBuiltIns(items: seq<(string, Val)>) returns (builtInCost: real)
    ensures builtInCost == BuiltInCost(items)
  {
    builtInCost := 0.0;
    var k := 0;
    while k < |items|
      invariant 0 <= k <= |items|
      invariant builtInCost == BuiltInCost(items[..k])
    {
      assert items[..k + 1][..k] == items[..k];
      var (id, enabled) := items[k];
      var e := BuiltInEntry(id);
      if Truthy(enabled) && e.Some? {
        builtInCost := builtInCost + e.value.priceAdd;
      }
      k := k + 1;
    }
    assert items[..|items|] == items;
  }

  /** `calculate_base_cost`. */
  method CalculateBaseCost(cfg: PoolConfig) returns (breakdown: seq<(string, real)>)
    ensures breakdown == BaseCostOf(cfg)
    ensures breakdown[1].1 == 0.35 * breakdown[0].1 && breakdown[2].1 == 0.10 * breakdown[0].1
  {
    var poolCost := PoolCost(cfg.poolSize, cfg.shape);
    var interiorCost := SelectedInterior(cfg.interiorFinish).priceAdd;
    var deckCost := DeckCost(cfg.deckMaterial, cfg.deckSqft);
    var waterCost := SumWaterFeatures(WaterFeatureIds(cfg));
    var builtInCost := SumBuiltIns(BuiltIns(cfg));
    var material := poolCost + interiorCost + deckCost + waterCost + builtInCost;
    breakdown := [("material", material), ("labor", material * 0.35), ("equipment", material * 0.10)];
  }

  /** The classic defaults: 65000 for the shell and 18 × 600 for the deck make 75800. */
  lemma ClassicDefaults()
    ensures Material(NO_SELECTION) == 75800.0
  {
  }

  /** An unknown size, shape, finish or deck material prices as if it had not been selected. */
  lemma UnknownSelectionsFallBack(cfg: PoolConfig, size: string, shape: string, finish: string, deck: string)
    requires SizeEntry(size).None? && ShapeEntry(shape).None?
    requires InteriorEntry(finish).None? && DeckEntry(deck).None?
    ensures Material(cfg.(poolSize := Some(size), shape := Some(shape), interiorFinish := Some(finish),
                          deckMaterial := Some(deck))) ==
            Material(cfg.(poolSize := None, shape := None, interiorFinish := None, deckMaterial := None))
  {
  }

  /** The shape changes the shell alone: two shapes differ by what they make the shell cost. */
  lemma ShapeScalesShellOnly(cfg: PoolConfig, s1: string, s2: string)
    ensures Material(cfg.(shape := Some(s1))) - Material(cfg.(shape := Some(s2))) ==
      PoolCost(cfg.poolSize, Some(s1)) - PoolCost(cfg.poolSize, Some(s2))
  {
  }

  /** A freeform pool costs 15 % more shell than a rectangle of the same size, and nothing more. */
  lemma FreeformCostsMore(cfg: PoolConfig)
    ensures Material(cfg.(shape := Some("freeform"))) - Material(cfg.(shape := Some("rectangle"))) ==
      SelectedSize(cfg.poolSize).basePrice * 0.15
  {
    ShapeScalesShellOnly(cfg, "freeform", "rectangle");
  }

  /** Water features raise the material cost by exactly what they add. */
  lemma WaterFeaturesAdd(cfg: PoolConfig, ids: seq<string>)
    ensures Material(cfg.(waterFeatures := Some(ids))) == Material(cfg.(waterFeatures := Some([]))) + WaterCost(ids)
  {
  }

  /** A rock waterfall and fire bowls add 8000 and 3500. */
  lemma WaterfallAndFireBowls()
    ensures WaterCost(["rock_waterfall", "fire_bowls"]) == 11500.0
  {
    assert ["rock_waterfall", "fire_bowls"][..1] == ["rock_waterfall"];
  }

  /** Unknown water features add nothing, wherever they are listed. */
  lemma {:induction false} UnknownWaterFeaturesFree(ids: seq<string>, unknown: string)
    requires WaterEntry(unknown).None?
    ensures WaterCost(ids + [unknown]) == WaterCost(ids)
    ensures WaterCost([unknown] + ids) == WaterCost(ids)
    decreases |ids|
  {
    assert (ids + [unknown])[..|ids|] == ids;
    if ids != [] {
      var n := |ids| - 1;
      UnknownWaterFeaturesFree(ids[..n], unknown);
      assert ([unknown] + ids)[..n + 1] == [unknown] + ids[..n];
    }
  }

  // ---------------------------------------------------------------------
  // get_line_items
  // ---------------------------------------------------------------------

  function ShellItem(cfg: PoolConfig): LineItem
  {
    var size := SelectedSize(cfg.poolSize);
    var cost := PoolCost(cfg.poolSize, cfg.shape);
    LineItem("Pool Shell - " + size.name + " (" + size.dimensions + ")", 1, cost, cost)
  }

  /** The interior line, present only for a finish that adds something. */
  function InteriorItems(cfg: PoolConfig): seq<LineItem>
  {
    var f := SelectedInterior(cfg.interiorFinish);
    if f.priceAdd > 0.0 then [LineItem("Interior Finish - " + f.name, 1, f.priceAdd, f.priceAdd)] else []
  }

  /** The deck line: the whole square feet, the price per square foot, and the deck cost. */
  function DeckItem(cfg: PoolConfig): LineItem
  {
    var d := SelectedDeck(cfg.deckMaterial);
    LineItem("Deck - " + d.name, PyInt(OrElse(cfg.deckSqft, 600.0)), d.pricePerSqft, DeckCost(cfg.deckMaterial, cfg.deckSqft))
  }

  /** The line of one listed water feature: none when the id is unknown. */
  function WaterLine(id: string): seq<LineItem>
  {
    var e := WaterEntry(id);
    if e.Some? then [LineItem("Water Feature - " + e.value.name, 1, e.value.priceAdd, e.value.priceAdd)] else []
  }

  /** The line of one built-in feature: none when it is disabled or unknown. */
  function BuiltInLine(id: string, enabled: Val): seq<LineItem>
  {
    var e := BuiltInEntry(id);
    if Truthy(enabled) && e.Some? then [LineItem("Built-In - " + e.value.name, 1, e.value.priceAdd, e.value.priceAdd)]
    else []
  }

  /** One line per known water feature, in order. */
  function WaterItems(ids: seq<string>): seq<LineItem>
  {
    if ids == [] then [] else WaterItems(ids[..|ids| - 1]) + WaterLine(ids[|ids| - 1])
  }

  /** One line per enabled known built-in feature, in order. */
  function BuiltInItems(items: seq<(string, Val)>): seq<LineItem>
  {
    if items == [] then []
    else BuiltInItems(items[..|items| - 1]) + BuiltInLine(items[|items| - 1].0, items[|items| - 1].1)
  }

  /** The line items: the shell, the interior if it adds something, the deck, then the features. */
  function LineItemsOf(cfg: PoolConfig): seq<LineItem>
  {
    [ShellItem(cfg)] + InteriorItems(cfg) + [DeckItem(cfg)] + WaterItems(WaterFeatureIds(cfg)) +
      BuiltInItems(BuiltIns(cfg))
  }

  /** The water features' lines of `get_line_items`, appended one at a time. */
  method AppendWaterLines(prefix: seq<LineItem>, ids: seq<string>) returns (items: seq<LineItem>)
    ensures items == prefix + WaterItems(ids)
  {
    items := prefix;
    var k := 0;
    while k < |ids|
      invariant 0 <= k <= |ids|
      invariant items == prefix + WaterItems(ids[..k])
    {
      assert ids[..k + 1][..k] == ids[..k];
      var e := WaterEntry(ids[k]);
      if e.Some? {
        items := items + [LineItem("Water Feature - " + e.value.name, 1, e.value.priceAdd, e.value.priceAdd)];
      }
      k := k + 1;
    }
    assert ids[..|ids|] == ids;
  }

  /** The built-in features' lines of `get_line_items`, appended one at a time. */
  method AppendBuiltInLines(prefix: seq<LineItem>, builtIns: seq<(string, Val)>) returns (items: seq<LineItem>)
    ensures items == prefix + BuiltInItems(builtIns)
  {
    items := prefix;
    var k := 0;
    while k < |builtIns|
      invariant 0 <= k <= |builtIns|
      invariant items == prefix + BuiltInItems(builtIns[..k])
    {
      assert builtIns[..k + 1][..k] == builtIns[..k];
      var (id, enabled) := builtIns[k];
      var e := BuiltInEntry(id);
      if Truthy(enabled) && e.Some? {
        items := items + [LineItem("Built-In - " + e.value.name, 1, e.value.priceAdd, e.value.priceAdd)];
      }
      k := k + 1;
    }
    assert builtIns[..|builtIns|] == builtIns;
  }

  /** `get_line_items`. */
  method GetLineItems(cfg: PoolConfig) returns (items: seq<LineItem>)
    ensures items == LineItemsOf(cfg)
  {
    items := [ShellItem(cfg)];
    var f := SelectedInterior(cfg.interiorFinish);
    if f.priceAdd > 0.0 {
      items := items + [LineItem("Interior Finish - " + f.name, 1, f.priceAdd, f.priceAdd)];
    }
    items := items + [DeckItem(cfg)];
    items := AppendWaterLines(items, WaterFeatureIds(cfg));
    items := AppendBuiltInLines(items, BuiltIns(cfg));
  }

  lemma TotalsAppend(a: seq<LineItem>, b: seq<LineItem>)
    ensures Sum(Totals(a + b)) == Sum(Totals(a)) + Sum(Totals(b))
  {
    assert Totals(a + b) == Totals(a) + Totals(b);
    SumAppend(Totals(a), Totals(b));
  }

  /** The water-feature lines add up to what the water features cost. */
  lemma {:induction false} WaterItemsTotal(ids: seq<string>)
    ensures Sum(Totals(WaterItems(ids))) == WaterCost(ids)
  {
    if ids != [] {
      var n := |ids| - 1;
      WaterItemsTotal(ids[..n]);
      TotalsAppend(WaterItems(ids[..n]), WaterLine(ids[n]));
    }
  }

  /** The built-in lines add up to what the enabled built-ins cost. */
  lemma {:induction false} BuiltInItemsTotal(items: seq<(string, Val)>)
    ensures Sum(Totals(BuiltInItems(items))) == BuiltInCost(items)
  {
    if items != [] {
      var n := |items| - 1;
      BuiltInItemsTotal(items[..n]);
      TotalsAppend(BuiltInItems(items[..n]), BuiltInLine(items[n].0, items[n].1));
    }
  }

  /** The line items add up to the material cost. */
  lemma LineItemsTotalMaterial(cfg: PoolConfig)
    ensures Sum(Totals(LineItemsOf(cfg))) == Material(cfg)
  {
    var shell, interior, deck := [ShellItem(cfg)], InteriorItems(cfg), [DeckItem(cfg)];
    var water, builtIns := WaterItems(WaterFeatureIds(cfg)), BuiltInItems(BuiltIns(cfg));
    TotalsAppend(shell, interior);
    TotalsAppend(shell + interior, deck);
    TotalsAppend(shell + interior + deck, water);
    TotalsAppend(shell + interior + deck + water, builtIns);
    WaterItemsTotal(WaterFeatureIds(cfg));
    BuiltInItemsTotal(BuiltIns(cfg));
    assert Sum(Totals(interior)) == SelectedInterior(cfg.interiorFinish).priceAdd;
  }

  /** There is one water-feature line per listed id that is known. */
  lemma {:induction false} WaterItemsCount(ids: seq<string>)
    ensures |WaterItems(ids)| == |set i | 0 <= i < |ids| && WaterEntry(ids[i]).Some?|
  {
    if ids != [] {
      var n := |ids| - 1;
      WaterItemsCount(ids[..n]);
      var before := set i | 0 <= i < n && WaterEntry(ids[..n][i]).Some?;
      var after := set i | 0 <= i < |ids| && WaterEntry(ids[i]).Some?;
      assert after == before + (if WaterEntry(ids[n]).Some? then {n} else {});
    }
  }

  /** The shell comes first and the deck follows it or the interior line, which appears exactly when the finish adds something. */
  lemma LineItemsShape(cfg: PoolConfig)
    ensures LineItemsOf(cfg)[0] == ShellItem(cfg)
    ensures |InteriorItems(cfg)| == (if SelectedInterior(cfg.interiorFinish).priceAdd > 0.0 then 1 else 0)
    ensures LineItemsOf(cfg)[|InteriorItems(cfg)| + 1] == DeckItem(cfg)
  {
  }

  /** With the default selections, the shell line is the classic pool and the deck line 600 square feet of travertine. */
  lemma DefaultLineItems()
    ensures LineItemsOf(NO_SELECTION) ==
      [LineItem("Pool Shell - Classic (15x30)", 1, 65000.0, 65000.0), LineItem("Deck - Travertine", 600, 18.0, 10800.0)]
  {
    assert ShellItem(NO_SELECTION) == LineItem("Pool Shell - Classic (15x30)", 1, 65000.0, 65000.0);
    assert DeckItem(NO_SELECTION) == LineItem("Deck - Travertine", 600, 18.0, 10800.0);
  }

  // ---------------------------------------------------------------------
  // calculate_final_price
  // ---------------------------------------------------------------------

  /** The subtotal of a pool price is the material cost plus 35 % labor and 10 % equipment. */
  lemma {:induction false} PoolSubtotal(cfg: PoolConfig)
    ensures Sum(Amounts(BaseCostOf(cfg))) == Material(cfg) * 1.45
  {
    var m := Material(cfg);
    assert Amounts(BaseCostOf(cfg)) == [m, m * 0.35, m * 0.10];
    assert Sum([m, m * 0.35, m * 0.10]) == m + Sum([m * 0.35, m * 0.10]);
    assert Sum([m * 0.35, m * 0.10]) == m * 0.35 + Sum([m * 0.10]);
  }

  /** `calculate_final_price` for a pools calculator. */
  method CalculateFinalPrice(c: Calculator, cfg: PoolConfig) returns (p: Price)
    requires c.vertical == Pools
    ensures p == FinalPrice(c, BaseCostOf(cfg), LineItemsOf(cfg))
    ensures p.subtotal == Material(cfg) * 1.45 && Sum(Totals(p.lineItems)) == Material(cfg)
    ensures p.verticalId == "pools" && p.kind == "estimate"
  {
    var breakdown := CalculateBaseCost(cfg);
    var items := GetLineItems(cfg);
    p := FinalPrice(c, breakdown, items);
    PoolSubtotal(cfg);
    LineItemsTotalMaterial(cfg);
  }
}
