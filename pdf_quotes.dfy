/**
 * The quote calculators of the PDF generator: one per vertical, each
 * appending priced lines to a quote and accumulating its total, and the
 * router that picks one by tenant id. Integer amounts of the source are
 * reals here. Each `int(...)` truncates the exact product of the prices,
 * not the product as a float: where the float product falls just below a
 * whole number, the source's amount is one less.
 */
module PdfQuotes {
  import opened Common
  import opened TenantBase
  import P = PoolsConfig
  import W = WindowsConfig
  import R = RoofsConfig
  import S = ScreensConfig

  /**
   * The scope keys the quote calculators read, each absent unless the
   * request's scope holds it. Flags keep their Python value, for they are
   * tested for truthiness.
   */
  datatype Scope = Scope(
    size: Option<string>,
    shape: Option<string>,
    interiorFinish: Option<string>,
    tanningLedge: Option<Val>,
    attachedSpa: Option<Val>,
    deckMaterial: Option<string>,
    waterFeatures: Option<seq<string>>,
    windowType: Option<string>,
    frameMaterial: Option<string>,
    grillePattern: Option<string>,
    glassOption: Option<string>,
    roofMaterial: Option<string>,
    solarOption: Option<string>,
    gutterOption: Option<string>,
    meshType: Option<string>,
    patio: Option<Val>,
    windowCount: Option<int>,
    doorCount: Option<int>,
    frameColor: Option<string>)

  /** An empty scope (`scope or {}` on a request without one). */
  const EMPTY_SCOPE := Scope(None, None, None, None, None, None, None, None, None, None, None, None, None, None,
                             None, None, None, None, None)

  function OrElse<T>(o: Option<T>, dflt: T): T
  {
    if o.Some? then o.value else dflt
  }

  /** A quote line. */
  datatype QuoteItem = QuoteItem(name: string, qty: real, unitPrice: real, subtotal: real)

  /** A calculator's result: its lines and the total it accumulated. */
  datatype Quote = Quote(items: seq<QuoteItem>, total: real)

  function Subtotals(items: seq<QuoteItem>): (xs: seq<real>)
    ensures |xs| == |items| && forall i :: 0 <= i < |items| ==> xs[i] == items[i].subtotal
  {
    seq(|items|, i requires 0 <= i < |items| => items[i].subtotal)
  }

  /** The sum of the lines' subtotals. */
  function ItemsTotal(items: seq<QuoteItem>): real
  {
    Sum(Subtotals(items))
  }

  lemma ItemsTotalAppend(items: seq<QuoteItem>, more: seq<QuoteItem>)
    ensures ItemsTotal(items + more) == ItemsTotal(items) + ItemsTotal(more)
  {
    assert Subtotals(items + more) == Subtotals(items) + Subtotals(more);
    SumAppend(Subtotals(items), Subtotals(more));
  }

  /** One step of every calculator: `items.append(line)` and `total += line's subtotal`. */
  method AddLine(q0: Quote, line: QuoteItem) returns (q: Quote)
    requires q0.total == ItemsTotal(q0.items)
    ensures q.items == q0.items + [line]
    ensures q.total == q0.total + line.subtotal && q.total == ItemsTotal(q.items)
  {
    ItemsTotalAppend(q0.items, [line]);
    assert Subtotals([line]) == [line.subtotal];
    assert Sum([line.subtotal]) == line.subtotal + Sum([]);
    q := Quote(q0.items + [line], q0.total + line.subtotal);
  }

  /** `next((x for x in table if x['id'] == id), None)`. */
  function Find(table: seq<Item>, id: string): (r: Option<Item>)
    ensures r.Some? <==> exists i :: 0 <= i < |table| && table[i].id == id
    ensures r.Some? ==> r.value in table && r.value.id == id
  {
    if table == [] then None
    else if table[0].id == id then Some(table[0])
    else
      var r := Find(table[1..], id);
      assert forall i :: 1 <= i < |table| ==> table[i] == table[1..][i - 1];
      r
  }

  // ---------------------------------------------------------------------
  // Display text
  // ---------------------------------------------------------------------

  predicate IsCased(c: char)
  {
    'a' <= c <= 'z' || 'A' <= c <= 'Z'
  }

  function UpperChar(c: char): char
  {
    if 'a' <= c <= 'z' then (c as int - 32) as char else c
  }

  /** `str.title()` on ASCII, after a cased character or not. */
  function TitleFrom(s: string, afterCased: bool): (r: string)
    ensures |r| == |s|
    ensures forall i :: 0 <= i < |s| ==> IsCased(r[i]) == IsCased(s[i])
    ensures forall i :: 0 <= i < |s| && !IsCased(s[i]) ==> r[i] == s[i]
    ensures |s| > 0 && !afterCased ==> r[0] == UpperChar(s[0])
  {
    if s == [] then []
    else
      var c := s[0];
      var c' := if IsCased(c) then (if afterCased then LowerChar(c) else UpperChar(c)) else c;
      var rest := TitleFrom(s[1..], IsCased(c));
      assert forall i :: 1 <= i < |s| ==> ([c'] + rest)[i] == rest[i - 1];
      [c'] + rest
  }

  /** `s.replace('_', ' ').title()`. */
  function Display(s: string): (r: string)
    ensures |r| == |s| && forall i :: 0 <= i < |s| ==> r[i] != '_'
  {
    var spaced := seq(|s|, i requires 0 <= i < |s| => if s[i] == '_' then ' ' else s[i]);
    TitleFrom(spaced, false)
  }

  // ---------------------------------------------------------------------
  // calculate_pools_quote
  // ---------------------------------------------------------------------

  /** The pools deck is priced at a fixed 400 square feet. */
  const POOL_DECK_SQFT: real := 400.0
  /** `BUILT_IN_FEATURES['tanning_ledge']['price_add']` and the spa's. */
  const TANNING_LEDGE_PRICE: real := 4500.0
  const ATTACHED_SPA_PRICE: real := 18000.0

  lemma BuiltInPricesFromCatalog()
    ensures P.BUILT_IN_FEATURES["tanning_ledge"]["price_add"] == VNum(TANNING_LEDGE_PRICE)
    ensures P.BUILT_IN_FEATURES["attached_spa"]["price_add"] == VNum(ATTACHED_SPA_PRICE)
  {
  }

  /** The size: the selected one, else `POOL_SIZES[1]` (classic). */
  function QuoteSize(s: Scope): P.PoolSize
  {
    FindById(P.POOL_SIZES, P.SizeId, VStr(OrElse(s.size, "classic")), P.POOL_SIZES[1])
  }

  /** The shape: the selected one, else `POOL_SHAPES[0]` (rectangle). */
  function QuoteShape(s: Scope): Item
  {
    FindById(P.POOL_SHAPES, ItemId, VStr(OrElse(s.shape, "rectangle")), P.POOL_SHAPES[0])
  }

  /** The construction price: the size's base price times the shape's multiplier, truncated (exactly, not as a float). */
  function ConstructionPrice(size: P.PoolSize, shape: Item): real
  {
    PyInt(size.basePrice * shape.price) as real
  }

  function ConstructionLine(size: P.PoolSize, shape: Item): QuoteItem
  {
    var price := ConstructionPrice(size, shape);
    QuoteItem("Pool Construction (" + size.name + " - " + shape.name + ")", 1.0, price, price)
  }

  /** The finish: the selected one, else `INTERIOR_FINISHES[0]` (white plaster). */
  function QuoteFinish(s: Scope): Item
  {
    FindById(P.INTERIOR_FINISHES, ItemId, VStr(OrElse(s.interiorFinish, "white_plaster")), P.INTERIOR_FINISHES[0])
  }

  function FinishLine(finish: Item): QuoteItem
  {
    QuoteItem("Interior Finish (" + finish.name + ")", 1.0, finish.price, finish.price)
  }

  /** The interior line, only for a finish that adds something. */
  function FinishItems(s: Scope): seq<QuoteItem>
  {
    if QuoteFinish(s).price > 0.0 then [FinishLine(QuoteFinish(s))] else []
  }

  /** The tanning ledge is included unless the scope sets it to a falsy value. */
  predicate HasTanningLedge(s: Scope)
  {
    Truthy(OrElse(s.tanningLedge, VBool(true)))
  }

  /** The spa is included only when the scope sets it to a truthy value. */
  predicate HasAttachedSpa(s: Scope)
  {
    Truthy(OrElse(s.attachedSpa, VNone))
  }

  const TANNING_LINE := QuoteItem("Tanning Ledge (Baja Shelf)", 1.0, TANNING_LEDGE_PRICE, TANNING_LEDGE_PRICE)
  const SPA_LINE := QuoteItem("Attached Spa (Spillover)", 1.0, ATTACHED_SPA_PRICE, ATTACHED_SPA_PRICE)

  function TanningItems(s: Scope): seq<QuoteItem>
  {
    if HasTanningLedge(s) then [TANNING_LINE] else []
  }

  function SpaItems(s: Scope): seq<QuoteItem>
  {
    if HasAttachedSpa(s) then [SPA_LINE] else []
  }

  /** The deck material: the selected one, else `DECK_MATERIALS[0]` (travertine). */
  function QuoteDeck(s: Scope): Item
  {
    FindById(P.DECK_MATERIALS, ItemId, VStr(OrElse(s.deckMaterial, "travertine")), P.DECK_MATERIALS[0])
  }

  function PoolDeckLine(deck: Item): QuoteItem
  {
    QuoteItem("Pool Deck - " + deck.name + " (~400 sq ft)", POOL_DECK_SQFT, deck.price, POOL_DECK_SQFT * deck.price)
  }

  function WaterFeatureLine(w: Item): QuoteItem
  {
    QuoteItem(w.name, 1.0, w.price, w.price)
  }

  /** The line of one selected water feature; an unknown id has none. */
  function WaterLine(id: string): seq<QuoteItem>
  {
    var w := Find(P.WATER_FEATURES, id);
    if w.Some? then [WaterFeatureLine(w.value)] else []
  }

  function WaterLines(ids: seq<string>): seq<QuoteItem>
  {
    if ids == [] then [] else WaterLines(ids[..|ids| - 1]) + WaterLine(ids[|ids| - 1])
  }

  /** The pools quote's lines, in the order the calculator appends them. */
  function PoolsItems(s: Scope): seq<QuoteItem>
  {
    [ConstructionLine(QuoteSize(s), QuoteShape(s))] + FinishItems(s) + TanningItems(s) + SpaItems(s) +
      [PoolDeckLine(QuoteDeck(s))] + WaterLines(OrElse(s.waterFeatures, []))
  }

  /** The water features' lines, appended one at a time to the quote so far. */
  method AppendWaterLines(q0: Quote, ids: seq<string>) returns (q: Quote)
    requires q0.total == ItemsTotal(q0.items)
    ensures q.items == q0.items + WaterLines(ids)
    ensures q.total == ItemsTotal(q.items)
  {
    q := q0;
    var k := 0;
    while k < |ids|
      invariant 0 <= k <= |ids|
      invariant q.items == q0.items + WaterLines(ids[..k])
      invariant q.total == ItemsTotal(q.items)
    {
      assert ids[..k + 1][..k] == ids[..k];
      var w := Find(P.WATER_FEATURES, ids[k]);
      if w.Some? {
        q := AddLine(q, WaterFeatureLine(w.value));
      }
      k := k + 1;
    }
    assert ids[..|ids|] == ids;
  }

  /** `calculate_pools_quote`: the total is the sum of the lines' subtotals. */
  method CalculatePoolsQuote(s: Scope) returns (q: Quote)
    ensures q.items == PoolsItems(s)
    ensures q.total == ItemsTotal(q.items)
  {
    q := Quote([], 0.0);
    q := AddLine(q, ConstructionLine(QuoteSize(s), QuoteShape(s)));
    var finish := QuoteFinish(s);
    if finish.price > 0.0 {
      q := AddLine(q, FinishLine(finish));
    }
    assert q.items == [ConstructionLine(QuoteSize(s), QuoteShape(s))] + FinishItems(s);
    if HasTanningLedge(s) {
      q := AddLine(q, TANNING_LINE);
    }
    if HasAttachedSpa(s) {
      q := AddLine(q, SPA_LINE);
    }
    assert q.items == [ConstructionLine(QuoteSize(s), QuoteShape(s))] + FinishItems(s) + TanningItems(s) + SpaItems(s);
    q := AddLine(q, PoolDeckLine(QuoteDeck(s)));
    q := AppendWaterLines(q, OrElse(s.waterFeatures, []));
  }

  /** Without selections the classic size, the rectangle shape, white plaster and travertine are quoted. */
  lemma DefaultPoolSelections()
    ensures QuoteSize(EMPTY_SCOPE) == P.POOL_SIZES[1] && QuoteShape(EMPTY_SCOPE) == P.POOL_SHAPES[0]
    ensures QuoteFinish(EMPTY_SCOPE) == P.INTERIOR_FINISHES[0] && QuoteDeck(EMPTY_SCOPE) == P.DECK_MATERIALS[0]
  {
    FindByIdAt(P.POOL_SIZES, P.SizeId, VStr("classic"), P.POOL_SIZES[1], 1);
  }

  /** The construction line of the default selections: 65000 for a classic rectangle. */
  lemma DefaultConstructionLine()
    ensures ConstructionLine(P.POOL_SIZES[1], P.POOL_SHAPES[0]) ==
      QuoteItem("Pool Construction (Classic - Rectangle)", 1.0, 65000.0, 65000.0)
  {
    assert ConstructionPrice(P.POOL_SIZES[1], P.POOL_SHAPES[0]) == 65000.0;
  }

  /** The deck line of the default selections: 400 sq ft of travertine at 18. */
  lemma DefaultDeckLine()
    ensures PoolDeckLine(P.DECK_MATERIALS[0]) == QuoteItem("Pool Deck - Travertine (~400 sq ft)", 400.0, 18.0, 7200.0)
  {
  }

  /** Without selections a pool quote is a classic rectangle, the tanning ledge and 400 sq ft of travertine. */
  lemma DefaultPoolsQuote()
    ensures PoolsItems(EMPTY_SCOPE) == [
      QuoteItem("Pool Construction (Classic - Rectangle)", 1.0, 65000.0, 65000.0),
      QuoteItem("Tanning Ledge (Baja Shelf)", 1.0, 4500.0, 4500.0),
      QuoteItem("Pool Deck - Travertine (~400 sq ft)", 400.0, 18.0, 7200.0)]
    ensures ItemsTotal(PoolsItems(EMPTY_SCOPE)) == 76700.0
  {
    DefaultPoolSelections();
    DefaultConstructionLine();
    DefaultDeckLine();
    assert FinishItems(EMPTY_SCOPE) == [] && SpaItems(EMPTY_SCOPE) == [] && WaterLines([]) == [];
    var items := PoolsItems(EMPTY_SCOPE);
    assert Subtotals(items) == [65000.0, 4500.0, 7200.0];
    assert Sum([65000.0, 4500.0, 7200.0]) == 65000.0 + Sum([4500.0, 7200.0]);
    assert Sum([4500.0, 7200.0]) == 4500.0 + Sum([7200.0]);
  }

  /** An unknown size is quoted as the classic size. */
  lemma UnknownSizeQuotedAsClassic(s: Scope)
    requires !HasId(P.POOL_SIZES, P.SizeId, VStr(OrElse(s.size, "classic")))
    ensures PoolsItems(s) == PoolsItems(s.(size := Some("classic")))
  {
    FindByIdSpec(P.POOL_SIZES, P.SizeId, VStr(OrElse(s.size, "classic")), P.POOL_SIZES[1]);
    FindByIdAt(P.POOL_SIZES, P.SizeId, VStr("classic"), P.POOL_SIZES[1], 1);
    var c := s.(size := Some("classic"));
    assert QuoteSize(c) == QuoteSize(s);
    assert QuoteShape(c) == QuoteShape(s) && QuoteFinish(c) == QuoteFinish(s) && QuoteDeck(c) == QuoteDeck(s);
    assert TanningItems(c) == TanningItems(s) && SpaItems(c) == SpaItems(s);
  }

  /** The tanning ledge line is present unless the scope turns it off explicitly. */
  lemma TanningLedgeUnlessFalsy(s: Scope)
    ensures TanningItems(s) != [] <==> s.tanningLedge.None? || Truthy(s.tanningLedge.value)
  {
  }

  /** Each water line is a catalog feature at its price, and unknown ids give no line. */
  lemma {:induction false} WaterLinesFromCatalog(ids: seq<string>)
    ensures |WaterLines(ids)| <= |ids|
    ensures forall it :: it in WaterLines(ids) ==> exists w :: w in P.WATER_FEATURES && it == WaterFeatureLine(w)
  {
    if ids != [] {
      WaterLinesFromCatalog(ids[..|ids| - 1]);
    }
  }

  // ---------------------------------------------------------------------
  // calculate_windows_quote
  // ---------------------------------------------------------------------

  /** The default number of windows quoted. */
  const WINDOW_COUNT: int := 5
  const GRILLE_PRICE: real := 150.0
  const GLASS_PRICE: real := 100.0
  const WINDOW_INSTALL_PRICE: real := 150.0

  /** `WINDOW_BASE_PRICES.get(window_type, 450)`. */
  function WindowBasePrice(windowType: string): real
  {
    match windowType
    case "single_hung" => 350.0
    case "double_hung" => 450.0
    case "casement" => 500.0
    case "slider" => 400.0
    case "picture" => 300.0
    case _ => 450.0
  }

  function QuoteFrameMaterial(s: Scope): Item
  {
    FindById(W.FRAME_MATERIALS, ItemId, VStr(OrElse(s.frameMaterial, "vinyl")), W.FRAME_MATERIALS[0])
  }

  /** The window line: the base price times the frame material's multiplier, truncated, per window. */
  function WindowLine(windowType: string, material: Item, count: int): QuoteItem
  {
    var unit := PyInt(WindowBasePrice(windowType) * material.price) as real;
    QuoteItem(Display(windowType) + " Windows (" + material.name + ")", count as real, unit, unit * count as real)
  }

  function GrilleLine(grille: string, count: int): QuoteItem
  {
    QuoteItem(Display(grille) + " Grille Pattern", count as real, GRILLE_PRICE, GRILLE_PRICE * count as real)
  }

  function GlassLine(glass: string, count: int): QuoteItem
  {
    QuoteItem(Display(glass) + " Glass", count as real, GLASS_PRICE, GLASS_PRICE * count as real)
  }

  /** A grille line unless the pattern is 'none'. */
  function GrilleLines(grille: string, count: int): seq<QuoteItem>
  {
    if grille != "none" then [GrilleLine(grille, count)] else []
  }

  /** A glass line unless the glass is clear or low-E. */
  function GlassLines(glass: string, count: int): seq<QuoteItem>
  {
    if glass != "clear" && glass != "low_e" then [GlassLine(glass, count)] else []
  }

  function WindowInstallLine(count: int): QuoteItem
  {
    QuoteItem("Professional Installation", count as real, WINDOW_INSTALL_PRICE, WINDOW_INSTALL_PRICE * count as real)
  }

  /** The windows quote's lines from the selections already looked up. */
  function WindowsLines(windowType: string, material: Item, grille: string, glass: string, count: int): seq<QuoteItem>
  {
    [WindowLine(windowType, material, count)] + GrilleLines(grille, count) + GlassLines(glass, count) +
      [WindowInstallLine(count)]
  }

  function WindowsItems(s: Scope, count: int): seq<QuoteItem>
  {
    WindowsLines(OrElse(s.windowType, "double_hung"), QuoteFrameMaterial(s), OrElse(s.grillePattern, "none"),
                 OrElse(s.glassOption, "clear"), count)
  }

  /** The lines of `calculate_windows_quote`, appended in order to an empty quote. */
  method BuildWindowsQuote(windowType: string, material: Item, grille: string, glass: string, count: int)
    returns (q: Quote)
    ensures q.items == WindowsLines(windowType, material, grille, glass, count)
    ensures q.total == ItemsTotal(q.items)
  {
    q := Quote([], 0.0);
    q := AddLine(q, WindowLine(windowType, material, count));
    if grille != "none" {
      q := AddLine(q, GrilleLine(grille, count));
    }
    if glass != "clear" && glass != "low_e" {
      q := AddLine(q, GlassLine(glass, count));
    }
    q := AddLine(q, WindowInstallLine(count));
  }

  /** `calculate_windows_quote`: the total is the sum of the lines' subtotals. */
  method CalculateWindowsQuote(s: Scope, count: int) returns (q: Quote)
    ensures q.items == WindowsItems(s, count)
    ensures q.total == ItemsTotal(q.items)
  {
    q := BuildWindowsQuote(OrElse(s.windowType, "double_hung"), QuoteFrameMaterial(s), OrElse(s.grillePattern, "none"),
                           OrElse(s.glassOption, "clear"), count);
  }

  /** The grille and glass lines appear exactly when selected, and installation, 150 a window, always closes the quote. */
  lemma WindowsQuoteLines(s: Scope, count: int)
    ensures |GrilleLines(OrElse(s.grillePattern, "none"), count)| == (if OrElse(s.grillePattern, "none") != "none" then 1 else 0)
    ensures |GlassLines(OrElse(s.glassOption, "clear"), count)| ==
      (if OrElse(s.glassOption, "clear") in {"clear", "low_e"} then 0 else 1)
    ensures WindowsItems(s, count)[|WindowsItems(s, count)| - 1].subtotal == 150.0 * count as real
  {
  }

  // ---------------------------------------------------------------------
  // calculate_roofs_quote
  // ---------------------------------------------------------------------

  /** The default roof area quoted. */
  const ROOF_SQFT: int := 2000
  const SOLAR_PRICE_PER_WATT: real := 3.0
  const GUTTER_LINEAR_FT: real := 200.0

  /** The system size of a solar option, 6000 W when unknown. */
  function SolarWatts(solar: string): real
  {
    match solar
    case "partial" => 6000.0
    case "full_south" => 10000.0
    case "full_all" => 15000.0
    case _ => 6000.0
  }

  /** The gutter price per linear foot, 8 when unknown. */
  function GutterRate(gutter: string): real
  {
    match gutter
    case "standard" => 8.0
    case "seamless" => 12.0
    case "copper" => 35.0
    case _ => 8.0
  }

  /** The catalog name of an option, or its id when the catalog does not list it. */
  function NameOr(table: seq<Item>, id: string): string
  {
    var found := Find(table, id);
    if found.Some? then found.value.name else id
  }

  function QuoteRoofMaterial(s: Scope): Item
  {
    FindById(R.ROOF_MATERIALS, ItemId, VStr(OrElse(s.roofMaterial, "asphalt_architectural")), R.ROOF_MATERIALS[1])
  }

  /** The roof line: the area times the material's price per square foot, truncated. */
  function RoofLine(material: Item, roofSqft: int): QuoteItem
  {
    QuoteItem(material.name + " Roofing", roofSqft as real, material.price,
              PyInt(roofSqft as real * material.price) as real)
  }

  function SolarLine(solar: string): QuoteItem
  {
    QuoteItem("Solar Panels (" + NameOr(R.SOLAR_OPTIONS, solar) + ")", SolarWatts(solar), SOLAR_PRICE_PER_WATT,
              SolarWatts(solar) * SOLAR_PRICE_PER_WATT)
  }

  function GutterLine(gutter: string): QuoteItem
  {
    QuoteItem(NameOr(R.GUTTER_OPTIONS, gutter) + " (~200 LF)", GUTTER_LINEAR_FT, GutterRate(gutter),
              GUTTER_LINEAR_FT * GutterRate(gutter))
  }

  /** A solar line unless the option is 'none' (the default). */
  function SolarItems(s: Scope): seq<QuoteItem>
  {
    var solar := OrElse(s.solarOption, "none");
    if solar != "none" then [SolarLine(solar)] else []
  }

  /** A gutter line unless the option is 'none'; standard gutters by default. */
  function GutterItems(s: Scope): seq<QuoteItem>
  {
    var gutter := OrElse(s.gutterOption, "standard");
    if gutter != "none" then [GutterLine(gutter)] else []
  }

  function RoofsItems(s: Scope, roofSqft: int): seq<QuoteItem>
  {
    [RoofLine(QuoteRoofMaterial(s), roofSqft)] + SolarItems(s) + GutterItems(s)
  }

  /** `calculate_roofs_quote`: the total is the sum of the lines' subtotals. */
  method CalculateRoofsQuote(s: Scope, roofSqft: int) returns (q: Quote)
    ensures q.items == RoofsItems(s, roofSqft)
    ensures q.total == ItemsTotal(q.items)
  {
    q := Quote([], 0.0);
    q := AddLine(q, RoofLine(QuoteRoofMaterial(s), roofSqft));
    var solar := OrElse(s.solarOption, "none");
    if solar != "none" {
      q := AddLine(q, SolarLine(solar));
    }
    var gutter := OrElse(s.gutterOption, "standard");
    if gutter != "none" {
      q := AddLine(q, GutterLine(gutter));
    }
  }

  /**
   * A solar line appears iff an option other than 'none' is chosen, at 3 a
   * watt with 6000 W for an unknown option; a gutter line iff the gutters
   * are not 'none', over 200 linear feet.
   */
  lemma RoofsQuoteLines(s: Scope, id: string)
    ensures SolarItems(s) != [] <==> s.solarOption.Some? && s.solarOption.value != "none"
    ensures GutterItems(s) != [] <==> OrElse(s.gutterOption, "standard") != "none"
    ensures id !in {"partial", "full_south", "full_all", "none"} ==>
      SolarItems(s.(solarOption := Some(id)))[0].subtotal == 18000.0
    ensures GutterItems(s) != [] ==> GutterItems(s)[0].subtotal == 200.0 * GutterRate(OrElse(s.gutterOption, "standard"))
  {
  }

  // ---------------------------------------------------------------------
  // calculate_screens_quote
  // ---------------------------------------------------------------------

  const PATIO_SQFT: int := 200
  const DOOR_PRICE: real := 800.0

  /** 200 square feet of patio unless the scope turns the patio off. */
  function PatioSqft(s: Scope): int
  {
    if Truthy(OrElse(s.patio, VBool(true))) then PATIO_SQFT else 0
  }

  function WindowCount(s: Scope): int
  {
    OrElse(s.windowCount, 4)
  }

  function DoorCount(s: Scope): int
  {
    OrElse(s.doorCount, 1)
  }

  function QuoteMesh(s: Scope): Item
  {
    FindById(S.MESH_TYPES_PRICING, ItemId, VStr(OrElse(s.meshType, "12x12_standard")), S.MESH_TYPES_PRICING[1])
  }

  function PatioLine(mesh: Item, sqft: int): QuoteItem
  {
    QuoteItem("Patio Enclosure - " + mesh.name + " (~200 sq ft)", sqft as real, mesh.price, sqft as real * mesh.price)
  }

  /** Window screens at 10 square feet a window. */
  function WindowScreenLine(mesh: Item, windowCount: int): QuoteItem
  {
    var sqft := windowCount * 10;
    QuoteItem("Window Screens - " + mesh.name + " (" + IntToString(windowCount) + " windows)", sqft as real,
              mesh.price, sqft as real * mesh.price)
  }

  function DoorLine(doorCount: int): QuoteItem
  {
    QuoteItem("Security Screen Doors", doorCount as real, DOOR_PRICE, doorCount as real * DOOR_PRICE)
  }

  function FrameColorLine(color: Item): QuoteItem
  {
    QuoteItem("Frame Color Upgrade (" + color.name + ")", 1.0, color.price, color.price)
  }

  /** The installation: a base charge plus a rate on the patio and window area. */
  function ScreensInstallLine(totalSqft: int): QuoteItem
  {
    var install := S.INSTALLATION_BASE + totalSqft as real * S.INSTALLATION_PER_SQFT;
    QuoteItem("Professional Installation", 1.0, install, install)
  }

  /**
   * The screens quote's lines from the selections already looked up: the
   * mesh, the patio area, the window and door counts and the frame color.
   */
  function ScreensLines(mesh: Item, patioSqft: int, windowCount: int, doorCount: int, color: Option<Item>): seq<QuoteItem>
  {
    PatioLines(mesh, patioSqft) + WindowScreenLines(mesh, windowCount) + DoorLines(doorCount) + FrameColorLines(color) +
      [ScreensInstallLine(patioSqft + windowCount * 10)]
  }

  function PatioLines(mesh: Item, patioSqft: int): seq<QuoteItem>
  {
    if patioSqft > 0 then [PatioLine(mesh, patioSqft)] else []
  }

  function WindowScreenLines(mesh: Item, windowCount: int): seq<QuoteItem>
  {
    if windowCount * 10 > 0 then [WindowScreenLine(mesh, windowCount)] else []
  }

  function DoorLines(doorCount: int): seq<QuoteItem>
  {
    if doorCount > 0 then [DoorLine(doorCount)] else []
  }

  /** A frame-color line only for a listed color that adds something. */
  function FrameColorLines(color: Option<Item>): seq<QuoteItem>
  {
    if color.Some? && color.value.price > 0.0 then [FrameColorLine(color.value)] else []
  }

  /** The frame color: the listed one, if any; black by default. */
  function QuoteFrameColor(s: Scope): Option<Item>
  {
    Find(S.FRAME_COLORS_PRICING, OrElse(s.frameColor, "black"))
  }

  function ScreensItems(s: Scope): seq<QuoteItem>
  {
    ScreensLines(QuoteMesh(s), PatioSqft(s), WindowCount(s), DoorCount(s), QuoteFrameColor(s))
  }

  /** The lines of `calculate_screens_quote`, appended in order to an empty quote. */
  method BuildScreensQuote(mesh: Item, patioSqft: int, windowCount: int, doorCount: int, color: Option<Item>)
    returns (q: Quote)
    ensures q.items == ScreensLines(mesh, patioSqft, windowCount, doorCount, color)
    ensures q.total == ItemsTotal(q.items)
  {
    q := Quote([], 0.0);
    if patioSqft > 0 {
      q := AddLine(q, PatioLine(mesh, patioSqft));
    }
    var windowSqft := windowCount * 10;
    if windowSqft > 0 {
      q := AddLine(q, WindowScreenLine(mesh, windowCount));
    }
    assert q.items == PatioLines(mesh, patioSqft) + WindowScreenLines(mesh, windowCount);
    if doorCount > 0 {
      q := AddLine(q, DoorLine(doorCount));
    }
    if color.Some? && color.value.price > 0.0 {
      q := AddLine(q, FrameColorLine(color.value));
    }
    assert q.items == PatioLines(mesh, patioSqft) + WindowScreenLines(mesh, windowCount) + DoorLines(doorCount) +
      FrameColorLines(color);
    q := AddLine(q, ScreensInstallLine(patioSqft + windowSqft));
  }

  /** `calculate_screens_quote`: the total is the sum of the lines' subtotals. */
  method CalculateScreensQuote(s: Scope) returns (q: Quote)
    ensures q.items == ScreensItems(s)
    ensures q.total == ItemsTotal(q.items)
  {
    q := BuildScreensQuote(QuoteMesh(s), PatioSqft(s), WindowCount(s), DoorCount(s), QuoteFrameColor(s));
  }

  /**
   * The door line appears iff there are doors, the patio line unless the
   * patio is turned off, and installation costs 500 plus 5 a square foot of
   * patio and window screen (10 sq ft a window).
   */
  lemma ScreensQuoteLines(s: Scope)
    ensures PatioSqft(s) > 0 <==> s.patio.None? || Truthy(s.patio.value)
    ensures |ScreensItems(s)| == 1 + (if PatioSqft(s) > 0 then 1 else 0) + (if WindowCount(s) > 0 then 1 else 0) +
      (if DoorCount(s) > 0 then 1 else 0) + (if QuoteFrameColor(s).Some? && QuoteFrameColor(s).value.price > 0.0 then 1 else 0)
    ensures ScreensItems(s)[|ScreensItems(s)| - 1].subtotal == 500.0 + 5.0 * (PatioSqft(s) + 10 * WindowCount(s)) as real
  {
  }

  // ---------------------------------------------------------------------
  // calculate_quote_for_tenant and get_tenant_display_name
  // ---------------------------------------------------------------------

  /** The lines of the quote the router picks: pools for any tenant it does not know. */
  function TenantItems(tenantId: string, s: Scope): seq<QuoteItem>
  {
    if tenantId == "windows" then WindowsItems(s, WINDOW_COUNT)
    else if tenantId == "roofs" then RoofsItems(s, ROOF_SQFT)
    else if tenantId == "screens" then ScreensItems(s)
    else PoolsItems(s)
  }

  /** `calculate_quote_for_tenant`, with each calculator's default counts. */
  method CalculateQuoteForTenant(tenantId: string, s: Scope) returns (q: Quote)
    ensures q.items == TenantItems(tenantId, s)
    ensures q.total == ItemsTotal(q.items)
  {
    if tenantId == "pools" {
      q := CalculatePoolsQuote(s);
    } else if tenantId == "windows" {
      q := CalculateWindowsQuote(s, WINDOW_COUNT);
    } else if tenantId == "roofs" {
      q := CalculateRoofsQuote(s, ROOF_SQFT);
    } else if tenantId == "screens" {
      q := CalculateScreensQuote(s);
    } else {
      q := CalculatePoolsQuote(s);
    }
  }

  /** A tenant the router does not know, the boss tenant among them, is quoted as a pool. */
  lemma UnknownTenantQuotedAsPool(tenantId: string, s: Scope)
    requires tenantId !in {"windows", "roofs", "screens"}
    ensures TenantItems(tenantId, s) == PoolsItems(s)
    ensures TenantItems("boss", s) == PoolsItems(s)
  {
  }

  /** `get_tenant_display_name`. */
  function TenantDisplayName(tenantId: string): (name: string)
    ensures tenantId !in {"pools", "windows", "roofs", "screens"} <==> name == "Home Improvement"
  {
    match tenantId
    case "pools" => "Swimming Pool"
    case "windows" => "Windows & Doors"
    case "roofs" => "Roofing & Solar"
    case "screens" => "Security Screens"
    case _ => "Home Improvement"
  }
}
