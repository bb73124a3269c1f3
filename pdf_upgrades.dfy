/**
 * The upgrade comparison of the PDF generator: for the request's vertical,
 * the options the customer did not pick, each with what it would add to the
 * price, grouped by category. A group is listed only when it offers at least
 * one upgrade. The free-text `benefit` of each upgrade is not modelled.
 */
module PdfUpgrades {
  import opened Common
  import opened TenantBase
  import P = PoolsConfig
  import W = WindowsConfig
  import R = RoofsConfig
  import S = ScreensConfig
  import Q = PdfQuotes

  /** An upgrade: the option's name and what it adds to the price. */
  datatype Upgrade = Upgrade(name: string, priceAdd: real)

  /** A category of upgrades, with the name of what is selected now. */
  datatype UpgradeGroup = UpgradeGroup(category: string, selected: string, upgrades: seq<Upgrade>)

  /** A group is appended only when it has upgrades. */
  function Group(category: string, selected: string, ups: seq<Upgrade>): (gs: seq<UpgradeGroup>)
    ensures gs != [] <==> ups != []
    ensures gs != [] ==> gs == [UpgradeGroup(category, selected, ups)]
  {
    if ups != [] then [UpgradeGroup(category, selected, ups)] else []
  }

  // ---------------------------------------------------------------------
  // Filtered catalog upgrades (frame materials, solar options, mesh types)
  // ---------------------------------------------------------------------

  /** The entries of `table` that `keep` accepts, in order, each priced by `price`. */
  function Upgrades(table: seq<Item>, keep: Item -> bool, price: Item -> real): seq<Upgrade>
  {
    if table == [] then []
    else
      var last := table[|table| - 1];
      Upgrades(table[..|table| - 1], keep, price) + (if keep(last) then [Upgrade(last.name, price(last))] else [])
  }

  /** An upgrade is listed iff some accepted entry of the table gives it. */
  lemma {:induction false} UpgradesMembers(table: seq<Item>, keep: Item -> bool, price: Item -> real, u: Upgrade)
    ensures u in Upgrades(table, keep, price) <==> exists it :: it in table && keep(it) && u == Upgrade(it.name, price(it))
  {
    if table != [] {
      var init, last := table[..|table| - 1], table[|table| - 1];
      assert table == init + [last];
      UpgradesMembers(init, keep, price, u);
      if u in Upgrades(table, keep, price) && u !in Upgrades(init, keep, price) {
        assert keep(last) && u == Upgrade(last.name, price(last));
      }
      if exists it :: it in table && keep(it) && u == Upgrade(it.name, price(it)) {
        var it :| it in table && keep(it) && u == Upgrade(it.name, price(it));
        if it != last {
          assert it in init;
        }
      }
    }
  }

  /** A loop over the table appending an upgrade for every entry it accepts. */
  method CollectUpgrades(table: seq<Item>, keep: Item -> bool, price: Item -> real) returns (ups: seq<Upgrade>)
    ensures ups == Upgrades(table, keep, price)
  {
    ups := [];
    var k := 0;
    while k < |table|
      invariant 0 <= k <= |table|
      invariant ups == Upgrades(table[..k], keep, price)
    {
      assert table[..k + 1][..k] == table[..k];
      var it := table[k];
      if keep(it) {
        ups := ups + [Upgrade(it.name, price(it))];
      }
      k := k + 1;
    }
    assert table[..|table|] == table;
  }

  /** The first entry with the id, found by a loop that stops at it. */
  method FirstMatch(table: seq<Item>, id: string) returns (r: Option<Item>)
    ensures r == Q.Find(table, id)
  {
    r := None;
    var k := 0;
    while k < |table|
      invariant 0 <= k <= |table|
      invariant Q.Find(table, id) == Q.Find(table[k..], id)
    {
      if table[k].id == id {
        r := Some(table[k]);
        assert table[k..][0] == table[k];
        break;
      }
      assert table[k..][1..] == table[k + 1..];
      k := k + 1;
    }
  }

  // ---------------------------------------------------------------------
  // Pool sizes: the sizes listed after the selected one
  // ---------------------------------------------------------------------

  /** No two sizes share an id. */
  predicate DistinctIds(sizes: seq<P.PoolSize>)
  {
    forall i, j :: 0 <= i < j < |sizes| ==> sizes[i].id != sizes[j].id
  }

  lemma PoolSizesDistinct()
    ensures DistinctIds(P.POOL_SIZES)
  {
  }

  /** Each size priced by the difference of its base price with `selectedPrice`. */
  function SizesAfter(sizes: seq<P.PoolSize>, selectedPrice: real): seq<Upgrade>
  {
    if sizes == [] then []
    else
      var last := sizes[|sizes| - 1];
      SizesAfter(sizes[..|sizes| - 1], selectedPrice) + [Upgrade(last.name, last.basePrice - selectedPrice)]
  }

  /** Every size becomes one upgrade, in order, priced at the difference. */
  lemma {:induction false} SizesAfterEach(sizes: seq<P.PoolSize>, selectedPrice: real)
    ensures |SizesAfter(sizes, selectedPrice)| == |sizes|
    ensures forall j :: 0 <= j < |sizes| ==>
      SizesAfter(sizes, selectedPrice)[j] == Upgrade(sizes[j].name, sizes[j].basePrice - selectedPrice)
  {
    if sizes != [] {
      SizesAfterEach(sizes[..|sizes| - 1], selectedPrice);
    }
  }

  /** The index of the first size with the id. */
  function SizeIndex(sizes: seq<P.PoolSize>, id: string): (r: Option<nat>)
    ensures r.None? <==> forall i :: 0 <= i < |sizes| ==> sizes[i].id != id
    ensures r.Some? ==> r.value < |sizes| && sizes[r.value].id == id
    ensures r.Some? ==> forall j :: 0 <= j < r.value ==> sizes[j].id != id
  {
    if sizes == [] then None
    else if sizes[0].id == id then Some(0)
    else
      var r := SizeIndex(sizes[1..], id);
      assert forall i :: 1 <= i < |sizes| ==> sizes[i] == sizes[1..][i - 1];
      if r.Some? then Some(r.value + 1) else None
  }

  /** The selected size's name and the sizes after it; nothing for an unknown size. */
  function SizeUpgradesOf(sizes: seq<P.PoolSize>, selected: string, defaultName: string): (string, seq<Upgrade>)
  {
    var i := SizeIndex(sizes, selected);
    if i.Some? then (sizes[i.value].name, SizesAfter(sizes[i.value + 1..], sizes[i.value].basePrice))
    else (defaultName, [])
  }

  /**
   * The loop with a `found_selected` flag: once the selected size is met,
   * every later size is an upgrade priced against it. With distinct ids,
   * as the catalog has, that is exactly the sizes after the selected one.
   */
  method SizeUpgrades(sizes: seq<P.PoolSize>, selected: string, defaultName: string)
    returns (selectedName: string, ups: seq<Upgrade>)
    ensures (forall i :: 0 <= i < |sizes| ==> sizes[i].id != selected) ==> selectedName == defaultName && ups == []
    ensures DistinctIds(sizes) ==> (selectedName, ups) == SizeUpgradesOf(sizes, selected, defaultName)
  {
    selectedName, ups := defaultName, [];
    var found := false;
    var selectedPrice := 0.0;
    ghost var at := 0;
    var k := 0;
    while k < |sizes|
      invariant 0 <= k <= |sizes|
      invariant !found ==> selectedName == defaultName && ups == [] && forall j :: 0 <= j < k ==> sizes[j].id != selected
      invariant found ==> 0 <= at < k && sizes[at].id == selected
      invariant found ==> selectedName == sizes[at].name && selectedPrice == sizes[at].basePrice
      invariant found && DistinctIds(sizes) ==> ups == SizesAfter(sizes[at + 1..k], selectedPrice)
    {
      var size := sizes[k];
      if size.id == selected {
        if found && DistinctIds(sizes) {
          assert false;
        }
        found := true;
        at := k;
        selectedName := size.name;
        selectedPrice := size.basePrice;
        assert sizes[at + 1..k + 1] == [];
      } else if found {
        assert sizes[at + 1..k + 1][..k - at - 1] == sizes[at + 1..k];
        ups := ups + [Upgrade(size.name, size.basePrice - selectedPrice)];
      }
      k := k + 1;
    }
    if found && DistinctIds(sizes) {
      assert sizes[at + 1..|sizes|] == sizes[at + 1..];
      assert SizeIndex(sizes, selected) == Some(at);
    }
  }

  // ---------------------------------------------------------------------
  // Water features: the ones not selected
  // ---------------------------------------------------------------------

  /** The features whose id is not among the selected ones, at their price. */
  function Unselected(features: seq<Item>, selected: seq<string>): seq<Upgrade>
  {
    if features == [] then []
    else
      var last := features[|features| - 1];
      Unselected(features[..|features| - 1], selected) +
        (if last.id !in selected then [Upgrade(last.name, last.price)] else [])
  }

  /** An upgrade is offered iff it is an unselected feature at its price. */
  lemma {:induction false} UnselectedMembers(features: seq<Item>, selected: seq<string>, u: Upgrade)
    ensures u in Unselected(features, selected) <==>
      exists f :: f in features && f.id !in selected && u == Upgrade(f.name, f.price)
  {
    if features != [] {
      var init, last := features[..|features| - 1], features[|features| - 1];
      assert features == init + [last];
      UnselectedMembers(init, selected, u);
      if exists f :: f in features && f.id !in selected && u == Upgrade(f.name, f.price) {
        var f :| f in features && f.id !in selected && u == Upgrade(f.name, f.price);
        if f != last {
          assert f in init;
        }
      }
    }
  }

  /** Selecting every feature leaves no water-feature upgrade. */
  lemma {:induction false} AllSelectedNoUpgrades(features: seq<Item>, selected: seq<string>)
    requires forall f :: f in features ==> f.id in selected
    ensures Unselected(features, selected) == []
  {
    if features != [] {
      AllSelectedNoUpgrades(features[..|features| - 1], selected);
      assert features[|features| - 1] in features;
    }
  }

  /** The loop over the catalog appending every feature not selected. */
  method UnselectedFeatures(features: seq<Item>, selected: seq<string>) returns (ups: seq<Upgrade>)
    ensures ups == Unselected(features, selected)
  {
    ups := [];
    var k := 0;
    while k < |features|
      invariant 0 <= k <= |features|
      invariant ups == Unselected(features[..k], selected)
    {
      assert features[..k + 1][..k] == features[..k];
      var feat := features[k];
      if feat.id !in selected {
        ups := ups + [Upgrade(feat.name, feat.price)];
      }
      k := k + 1;
    }
    assert features[..|features|] == features;
  }

  /** "{n} selected", or 'None' for no selection. */
  function SelectedLabel(selected: seq<string>): (text: string)
    ensures selected == [] <==> text == "None"
  {
    if selected != [] then NatToString(|selected|) + " selected" else "None"
  }

  // ---------------------------------------------------------------------
  // The groups of each vertical
  // ---------------------------------------------------------------------

  /** The name of the default size, `classic`. */
  function DefaultSizeName(): string
  {
    FindById(P.POOL_SIZES, P.SizeId, VStr("classic"), P.POOL_SIZES[1]).name
  }

  function PoolsGroups(s: Q.Scope): seq<UpgradeGroup>
  {
    var sizes := SizeUpgradesOf(P.POOL_SIZES, Q.OrElse(s.size, "classic"), DefaultSizeName());
    var selected := Q.OrElse(s.waterFeatures, []);
    Group("Pool Size", sizes.0, sizes.1) +
      Group("Water Features", SelectedLabel(selected), Unselected(P.WATER_FEATURES, selected))
  }

  /** The selected frame material's name and multiplier; Vinyl at 1.0 when it is not listed. */
  function SelectedMaterial(selected: string): (string, real)
  {
    var m := Q.Find(W.FRAME_MATERIALS, selected);
    if m.Some? then (m.value.name, m.value.price) else ("Vinyl", 1.0)
  }

  /** A material is an upgrade when it is another one with a higher multiplier. */
  function MaterialKeep(selected: string, multiplier: real): Item -> bool
  {
    (m: Item) => m.id != selected && m.price > multiplier
  }

  /** Priced at the window's base price times the difference of multipliers, truncated. */
  function MaterialPrice(basePrice: real, multiplier: real): Item -> real
  {
    (m: Item) => TruncatedDiff(basePrice, m.price, multiplier)
  }

  /** `int(base_price * price_diff)`, with the difference and the product taken exactly rather than as floats. */
  function TruncatedDiff(basePrice: real, price: real, multiplier: real): real
  {
    PyInt(basePrice * (price - multiplier)) as real
  }

  function WindowsGroups(s: Q.Scope): seq<UpgradeGroup>
  {
    var selected := Q.OrElse(s.frameMaterial, "vinyl");
    var base := Q.WindowBasePrice(Q.OrElse(s.windowType, "double_hung"));
    var (name, multiplier) := SelectedMaterial(selected);
    Group("Frame Material", name, Upgrades(W.FRAME_MATERIALS, MaterialKeep(selected, multiplier),
                                           MaterialPrice(base, multiplier)))
  }

  /** Every solar option but 'none'. */
  function SolarKeep(): Item -> bool
  {
    (o: Item) => o.id != "none"
  }

  /** The option's system size at 3 a watt, 6000 W when the size is not listed. */
  function SolarPrice(): Item -> real
  {
    (o: Item) => Q.SolarWatts(o.id) * Q.SOLAR_PRICE_PER_WATT
  }

  /** Solar upgrades are offered only when no solar is selected. */
  function RoofsGroups(s: Q.Scope): seq<UpgradeGroup>
  {
    if Q.OrElse(s.solarOption, "none") == "none" then
      Group("Solar Panels", "None", Upgrades(R.SOLAR_OPTIONS, SolarKeep(), SolarPrice()))
    else []
  }

  /** The selected mesh's name and price per square foot; the default mesh's when it is not listed. */
  function SelectedMesh(selected: string): (string, real)
  {
    var dflt := FindById(S.MESH_TYPES_PRICING, ItemId, VStr("12x12_standard"), S.MESH_TYPES_PRICING[1]);
    var m := Q.Find(S.MESH_TYPES_PRICING, selected);
    if m.Some? then (m.value.name, m.value.price) else (dflt.name, dflt.price)
  }

  /** A mesh is an upgrade when it is another one with a higher price per square foot. */
  function MeshKeep(selected: string, selectedPrice: real): Item -> bool
  {
    (m: Item) => m.id != selected && m.price > selectedPrice
  }

  /** Priced at the difference per square foot times the patio and window area. */
  function MeshPrice(selectedPrice: real, totalSqft: int): Item -> real
  {
    (m: Item) => (m.price - selectedPrice) * totalSqft as real
  }

  /** The patio and window-screen area, as the quote computes it. */
  function TotalSqft(s: Q.Scope): int
  {
    Q.PatioSqft(s) + Q.WindowCount(s) * 10
  }

  function ScreensGroups(s: Q.Scope): seq<UpgradeGroup>
  {
    var selected := Q.OrElse(s.meshType, "12x12_standard");
    var (name, price) := SelectedMesh(selected);
    Group("Mesh Type", name, Upgrades(S.MESH_TYPES_PRICING, MeshKeep(selected, price), MeshPrice(price, TotalSqft(s))))
  }

  /** `get_available_upgrades`: only the four verticals offer any. */
  function AvailableUpgrades(tenantId: string, s: Q.Scope): seq<UpgradeGroup>
  {
    if tenantId == "pools" then PoolsGroups(s)
    else if tenantId == "windows" then WindowsGroups(s)
    else if tenantId == "roofs" then RoofsGroups(s)
    else if tenantId == "screens" then ScreensGroups(s)
    else []
  }

  // ---------------------------------------------------------------------
  // get_available_upgrades
  // ---------------------------------------------------------------------

  method PoolsUpgrades(s: Q.Scope) returns (groups: seq<UpgradeGroup>)
    ensures groups == PoolsGroups(s)
  {
    PoolSizesDistinct();
    var selectedName, sizeUps := SizeUpgrades(P.POOL_SIZES, Q.OrElse(s.size, "classic"), DefaultSizeName());
    groups := Group("Pool Size", selectedName, sizeUps);
    var selected := Q.OrElse(s.waterFeatures, []);
    var featureUps := UnselectedFeatures(P.WATER_FEATURES, selected);
    groups := groups + Group("Water Features", SelectedLabel(selected), featureUps);
  }

  method WindowsUpgrades(s: Q.Scope) returns (groups: seq<UpgradeGroup>)
    ensures groups == WindowsGroups(s)
  {
    var selected := Q.OrElse(s.frameMaterial, "vinyl");
    var base := Q.WindowBasePrice(Q.OrElse(s.windowType, "double_hung"));
    var name, multiplier := "Vinyl", 1.0;
    var m := FirstMatch(W.FRAME_MATERIALS, selected);
    if m.Some? {
      name, multiplier := m.value.name, m.value.price;
    }
    var ups := CollectUpgrades(W.FRAME_MATERIALS, MaterialKeep(selected, multiplier), MaterialPrice(base, multiplier));
    groups := Group("Frame Material", name, ups);
  }

  method RoofsUpgrades(s: Q.Scope) returns (groups: seq<UpgradeGroup>)
    ensures groups == RoofsGroups(s)
  {
    groups := [];
    if Q.OrElse(s.solarOption, "none") == "none" {
      var ups := CollectUpgrades(R.SOLAR_OPTIONS, SolarKeep(), SolarPrice());
      groups := Group("Solar Panels", "None", ups);
    }
  }

  method ScreensUpgrades(s: Q.Scope) returns (groups: seq<UpgradeGroup>)
    ensures groups == ScreensGroups(s)
  {
    var selected := Q.OrElse(s.meshType, "12x12_standard");
    var dflt := FindById(S.MESH_TYPES_PRICING, ItemId, VStr("12x12_standard"), S.MESH_TYPES_PRICING[1]);
    var name, price := dflt.name, dflt.price;
    var m := FirstMatch(S.MESH_TYPES_PRICING, selected);
    if m.Some? {
      name, price := m.value.name, m.value.price;
    }
    var ups := CollectUpgrades(S.MESH_TYPES_PRICING, MeshKeep(selected, price), MeshPrice(price, TotalSqft(s)));
    groups := Group("Mesh Type", name, ups);
  }

  method GetAvailableUpgrades(tenantId: string, s: Q.Scope) returns (groups: seq<UpgradeGroup>)
    ensures groups == AvailableUpgrades(tenantId, s)
  {
    if tenantId == "pools" {
      groups := PoolsUpgrades(s);
    } else if tenantId == "windows" {
      groups := WindowsUpgrades(s);
    } else if tenantId == "roofs" {
      groups := RoofsUpgrades(s);
    } else if tenantId == "screens" {
      groups := ScreensUpgrades(s);
    } else {
      groups := [];
    }
  }

  // ---------------------------------------------------------------------
  // Properties
  // ---------------------------------------------------------------------

  /** Every group offers at least one upgrade. */
  lemma GroupsNonEmpty(tenantId: string, s: Q.Scope)
    ensures forall g :: g in AvailableUpgrades(tenantId, s) ==> g.upgrades != []
  {
  }

  /** An unknown pool size offers no size upgrade; a known one offers exactly the sizes after it. */
  lemma PoolSizeUpgradesExact(selected: string)
    ensures SizeIndex(P.POOL_SIZES, selected).None? ==> SizeUpgradesOf(P.POOL_SIZES, selected, DefaultSizeName()).1 == []
    ensures forall i :: 0 <= i < |P.POOL_SIZES| && P.POOL_SIZES[i].id == selected ==>
      var ups := SizeUpgradesOf(P.POOL_SIZES, selected, DefaultSizeName()).1;
      |ups| == |P.POOL_SIZES| - i - 1 &&
      forall j :: i < j < |P.POOL_SIZES| ==>
        ups[j - i - 1] == Upgrade(P.POOL_SIZES[j].name, P.POOL_SIZES[j].basePrice - P.POOL_SIZES[i].basePrice)
  {
    PoolSizesDistinct();
    var r := SizeIndex(P.POOL_SIZES, selected);
    if r.Some? {
      var i := r.value;
      SizesAfterEach(P.POOL_SIZES[i + 1..], P.POOL_SIZES[i].basePrice);
    }
  }

  /** A classic pool is offered the family size for 10000 more and the resort size for 30000 more. */
  lemma ClassicSizeUpgrades()
    ensures SizeUpgradesOf(P.POOL_SIZES, "classic", DefaultSizeName()).1 ==
      [Upgrade("Family", 10000.0), Upgrade("Resort", 30000.0)]
  {
    assert SizeIndex(P.POOL_SIZES, "classic") == Some(1);
    var after := P.POOL_SIZES[2..];
    assert after == [P.POOL_SIZES[2], P.POOL_SIZES[3]];
    SizesAfterEach(after, 65000.0);
  }

  /** A frame-material upgrade is another material with a higher multiplier, priced at the truncated difference. */
  lemma MaterialUpgradesCostMore(materials: seq<Item>, selected: string, multiplier: real, base: real, u: Upgrade)
    ensures u in Upgrades(materials, MaterialKeep(selected, multiplier), MaterialPrice(base, multiplier)) <==>
      exists m :: m in materials && m.id != selected && m.price > multiplier &&
        u == Upgrade(m.name, PyInt(base * (m.price - multiplier)) as real)
  {
    UpgradesMembers(materials, MaterialKeep(selected, multiplier), MaterialPrice(base, multiplier), u);
    assert forall m: Item :: MaterialKeep(selected, multiplier)(m) == (m.id != selected && m.price > multiplier);
    assert forall m: Item :: MaterialPrice(base, multiplier)(m) == TruncatedDiff(base, m.price, multiplier);
  }

  /** A roof with solar selected gets no upgrade. */
  lemma SolarOnlyWithoutSolar(s: Q.Scope)
    ensures Q.OrElse(s.solarOption, "none") != "none" ==> AvailableUpgrades("roofs", s) == []
  {
  }

  /** Solar upgrades are the options other than 'none', each at its system size times 3. */
  lemma SolarUpgradesPriced(options: seq<Item>, u: Upgrade)
    ensures u in Upgrades(options, SolarKeep(), SolarPrice()) <==>
      exists o :: o in options && o.id != "none" && u == Upgrade(o.name, Q.SolarWatts(o.id) * 3.0)
  {
    UpgradesMembers(options, SolarKeep(), SolarPrice(), u);
    assert forall o: Item :: SolarKeep()(o) == (o.id != "none") && SolarPrice()(o) == Q.SolarWatts(o.id) * 3.0;
  }

  /** A mesh upgrade is a pricier mesh, priced at the difference per square foot over the whole area. */
  lemma MeshUpgradesPriced(meshes: seq<Item>, selected: string, price: real, s: Q.Scope, u: Upgrade)
    ensures u in Upgrades(meshes, MeshKeep(selected, price), MeshPrice(price, TotalSqft(s))) <==>
      exists m :: m in meshes && m.id != selected && m.price > price &&
        u == Upgrade(m.name, (m.price - price) * (Q.PatioSqft(s) + 10 * Q.WindowCount(s)) as real)
  {
    UpgradesMembers(meshes, MeshKeep(selected, price), MeshPrice(price, TotalSqft(s)), u);
    assert forall m: Item :: MeshKeep(selected, price)(m) == (m.id != selected && m.price > price);
    assert forall m: Item ::
      MeshPrice(price, TotalSqft(s))(m) == (m.price - price) * (Q.PatioSqft(s) + 10 * Q.WindowCount(s)) as real;
  }
}
