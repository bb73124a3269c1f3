/**
 * The price-book models: a contractor's override of a price-book item's
 * price, and the pricing defaults of a new contractor profile.
 */
module PriceOverride {
  import opened Common
  import opened PricingBase

  /** The pricing fields of a `PriceBookItem`. */
  datatype PriceBookItem = PriceBookItem(basePrice: real, priceMultiplier: real, pricePerUnit: Option<real>)

  /** A `ContractorPriceOverride`: a custom price, a percentage adjustment, either, both or neither. */
  datatype Override = Override(item: PriceBookItem, customPrice: Option<real>, adjustmentPercent: Option<real>)

  /**
   * `get_effective_price`: the custom price when there is one, even beside
   * an adjustment; else the base price adjusted by the percentage; else the
   * base price.
   */
  function EffectivePrice(o: Override): (p: real)
    ensures o.customPrice.Some? ==> p == o.customPrice.value
    ensures o.customPrice.None? && o.adjustmentPercent.Some? ==>
      (p - o.item.basePrice) * 100.0 == o.item.basePrice * o.adjustmentPercent.value
    ensures o.customPrice.None? && o.adjustmentPercent.None? ==> p == o.item.basePrice
  {
    var base := o.item.basePrice;
    if o.customPrice.Some? then o.customPrice.value
    else if o.adjustmentPercent.Some? then base * (1.0 + o.adjustmentPercent.value / 100.0)
    else base
  }

  /** The effective price reads the base price alone: the multiplier and the per-unit price never matter. */
  lemma OnlyBasePriceMatters(o: Override, multiplier: real, perUnit: Option<real>)
    ensures EffectivePrice(o.(item := o.item.(priceMultiplier := multiplier, pricePerUnit := perUnit))) ==
            EffectivePrice(o)
  {
  }

  /** A positive adjustment raises the base price, a negative one lowers it, and none leaves it. */
  lemma AdjustmentDirection(item: PriceBookItem, pct: real)
    requires item.basePrice > 0.0
    ensures pct > 0.0 <==> EffectivePrice(Override(item, None, Some(pct))) > item.basePrice
    ensures pct < 0.0 <==> EffectivePrice(Override(item, None, Some(pct))) < item.basePrice
  {
    var p := EffectivePrice(Override(item, None, Some(pct)));
    assert (p - item.basePrice) * 100.0 == item.basePrice * pct;
  }

  /** A new `ContractorProfile`: 15.00 % overhead, 25.00 % profit margin, 8.250 % tax. */
  const NEW_PROFILE := Profile(15.00, 25.00, 8.250)

  /** A contractor with a new profile is priced exactly as one without a profile. */
  lemma NewProfileMatchesDefaults(v: Vertical, id: Option<string>, breakdown: seq<(string, real)>, items: seq<LineItem>)
    ensures NEW_PROFILE == Profile(DEFAULT_OVERHEAD_PERCENT, DEFAULT_MARKUP_PERCENT, DEFAULT_TAX_RATE)
    ensures FinalPrice(Calculator(v, id, Some(NEW_PROFILE)), breakdown, items) ==
            FinalPrice(Calculator(v, id, None), breakdown, items)
  {
    DefaultProfileSamePrice(v, id, breakdown, items);
  }
}
