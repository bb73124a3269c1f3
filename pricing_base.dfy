/**
 * `BasePricingCalculator`: overhead, markup and tax on a subtotal, with a
 * contractor's own percentages when the contractor has an active profile
 * and 15 %, 25 % and 8.25 % otherwise, and the final price assembled from
 * a vertical's cost breakdown. Decimal amounts are exact reals.
 */
module PricingBase {
  import opened Common

  const DEFAULT_OVERHEAD_PERCENT: real := 15.00
  const DEFAULT_MARKUP_PERCENT: real := 25.00
  const DEFAULT_TAX_RATE: real := 8.250

  /** The concrete calculators. The abstract base is not one of them, so it cannot be built. */
  datatype Vertical = Pools

  /** The `vertical_id` each concrete calculator declares. */
  function VerticalId(v: Vertical): string
  {
    match v
    case Pools => "pools"
  }

  /** A contractor's pricing settings. */
  datatype Profile = Profile(overheadPercent: real, profitMarginPercent: real, taxRate: real)

  /** A calculator: its vertical, the contractor it was built for, and that contractor's profile if one was found. */
  datatype Calculator = Calculator(vertical: Vertical, contractorId: Option<string>, profile: Option<Profile>)

  /**
   * `_load_contractor_profile`: only a non-empty contractor id is looked
   * up, among the active profiles (`activeProfiles`, keyed by user id); a
   * missing one leaves no profile.
   */
  function LoadProfile(contractorId: Option<string>, activeProfiles: map<string, Profile>): (p: Option<Profile>)
    ensures p.Some? <==> contractorId.Some? && contractorId.value != "" && contractorId.value in activeProfiles
    ensures p.Some? ==> p.value == activeProfiles[contractorId.value]
  {
    if contractorId.Some? && contractorId.value != "" && contractorId.value in activeProfiles
    then Some(activeProfiles[contractorId.value])
    else None
  }

  /** `__init__`: the calculator keeps the contractor id it was given and loads the profile. */
  function NewCalculator(v: Vertical, contractorId: Option<string>, activeProfiles: map<string, Profile>): (c: Calculator)
    ensures c.vertical == v && c.contractorId == contractorId
    ensures c.profile == LoadProfile(contractorId, activeProfiles)
    ensures contractorId.None? ==> c.profile.None?
  {
    Calculator(v, contractorId, LoadProfile(contractorId, activeProfiles))
  }

  function OverheadPercent(c: Calculator): real
  {
    if c.profile.Some? then c.profile.value.overheadPercent else DEFAULT_OVERHEAD_PERCENT
  }

  function MarkupPercent(c: Calculator): real
  {
    if c.profile.Some? then c.profile.value.profitMarginPercent else DEFAULT_MARKUP_PERCENT
  }

  function TaxRate(c: Calculator): real
  {
    if c.profile.Some? then c.profile.value.taxRate else DEFAULT_TAX_RATE
  }

  /** `apply_overhead`: the amount raised by the overhead percentage; what it adds is that share of the amount. */
  function ApplyOverhead(c: Calculator, amount: real): (r: real)
    ensures r - amount == amount * OverheadPercent(c) / 100.0
    ensures c.profile.None? ==> r == amount * 1.15
  {
    amount * (1.0 + OverheadPercent(c) / 100.0)
  }

  /** `apply_markup`: the amount raised by the profit margin; what it adds is that share of the amount. */
  function ApplyMarkup(c: Calculator, amount: real): (r: real)
    ensures r - amount == amount * MarkupPercent(c) / 100.0
    ensures c.profile.None? ==> r == amount * 1.25
  {
    amount * (1.0 + MarkupPercent(c) / 100.0)
  }

  /** `apply_tax`: only the tax on the amount, not the amount with tax. */
  function ApplyTax(c: Calculator, amount: real): (r: real)
    ensures r * 100.0 == amount * TaxRate(c)
    ensures c.profile.None? ==> r == amount * 0.0825
  {
    amount * (TaxRate(c) / 100.0)
  }

  /** Without a profile, 1000 gains 150 of overhead and 1000 gains 250 of markup. */
  lemma DefaultPercentages(c: Calculator)
    requires c.profile.None?
    ensures ApplyOverhead(c, 1000.0) == 1150.0
    ensures ApplyMarkup(c, 1000.0) == 1250.0
    ensures ApplyTax(c, 1000.0) == 82.5
  {
  }

  /** A displayed line of a price. */
  datatype LineItem = LineItem(name: string, quantity: int, unitPrice: real, total: real)

  /** The totals of the line items, in order. */
  function Totals(items: seq<LineItem>): (ts: seq<real>)
    ensures |ts| == |items| && forall i :: 0 <= i < |items| ==> ts[i] == items[i].total
  {
    seq(|items|, i requires 0 <= i < |items| => items[i].total)
  }

  /** The result of `calculate_final_price`. */
  datatype Price = Price(
    subtotal: real,
    overhead: real,
    profit: real,
    tax: real,
    total: real,
    lineItems: seq<LineItem>,
    costBreakdown: seq<(string, real)>,
    kind: string,
    verticalId: string)

  /** The amounts of a cost breakdown, in order. */
  function Amounts(breakdown: seq<(string, real)>): (xs: seq<real>)
    ensures |xs| == |breakdown| && forall i :: 0 <= i < |xs| ==> xs[i] == breakdown[i].1
  {
    seq(|breakdown|, i requires 0 <= i < |breakdown| => breakdown[i].1)
  }

  /**
   * `calculate_final_price` given the vertical's cost breakdown and line
   * items: the subtotal is the sum of the breakdown; overhead is charged on
   * the subtotal, the markup on the subtotal with overhead, and the tax on
   * the amount with markup; the total is the four added up. The result is
   * an estimate of the calculator's vertical.
   */
  function FinalPrice(c: Calculator, breakdown: seq<(string, real)>, items: seq<LineItem>): (p: Price)
    ensures p.subtotal == Sum(Amounts(breakdown))
    ensures p.overhead == p.subtotal * OverheadPercent(c) / 100.0
    ensures p.profit == (p.subtotal + p.overhead) * MarkupPercent(c) / 100.0
    ensures p.tax * 100.0 == (p.subtotal + p.overhead + p.profit) * TaxRate(c)
    ensures p.total == p.subtotal + p.overhead + p.profit + p.tax
    ensures p.lineItems == items && p.costBreakdown == breakdown
    ensures p.kind == "estimate" && p.verticalId == VerticalId(c.vertical)
  {
    var subtotal := Sum(Amounts(breakdown));
    var withOverhead := ApplyOverhead(c, subtotal);
    var withMarkup := ApplyMarkup(c, withOverhead);
    var tax := ApplyTax(c, withMarkup);
    Price(subtotal, withOverhead - subtotal, withMarkup - withOverhead, tax, withMarkup + tax, items, breakdown,
          "estimate", VerticalId(c.vertical))
  }

  /** The total is the subtotal raised in turn by the overhead, the markup and the tax. */
  lemma FinalPriceCompounds(c: Calculator, breakdown: seq<(string, real)>, items: seq<LineItem>)
    ensures FinalPrice(c, breakdown, items).total ==
      Sum(Amounts(breakdown)) * (1.0 + OverheadPercent(c) / 100.0) * (1.0 + MarkupPercent(c) / 100.0) *
      (1.0 + TaxRate(c) / 100.0)
  {
    var s := Sum(Amounts(breakdown));
    var o, m, t := OverheadPercent(c) / 100.0, MarkupPercent(c) / 100.0, TaxRate(c) / 100.0;
    var withOverhead := ApplyOverhead(c, s);
    var withMarkup := ApplyMarkup(c, withOverhead);
    assert withOverhead == s * (1.0 + o);
    assert withMarkup == s * (1.0 + o) * (1.0 + m);
    assert withMarkup + ApplyTax(c, withMarkup) == withMarkup * (1.0 + t);
  }

  /** A profile with the default percentages prices exactly as no profile does. */
  lemma DefaultProfileSamePrice(v: Vertical, id: Option<string>, breakdown: seq<(string, real)>, items: seq<LineItem>)
    ensures FinalPrice(Calculator(v, id, Some(Profile(DEFAULT_OVERHEAD_PERCENT, DEFAULT_MARKUP_PERCENT, DEFAULT_TAX_RATE))),
                       breakdown, items) ==
            FinalPrice(Calculator(v, id, None), breakdown, items)
  {
  }
}
