/**
 * The calculator factory: `CALCULATOR_REGISTRY` maps vertical ids to
 * calculators and `get_calculator` builds one for a contractor.
 */
module PricingRegistry {
  import opened Common
  import opened PricingBase

  /** `CALCULATOR_REGISTRY`: the verticals a calculator exists for. Only pools is registered. */
  function RegistryEntry(verticalId: string): Option<Vertical>
  {
    if verticalId == "pools" then Some(Pools) else None
  }

  /** The message of `CalculatorNotFoundError`. */
  function NotFoundMessage(verticalId: string): string
  {
    "No calculator found for vertical: " + verticalId
  }

  /**
   * `get_calculator`: a calculator of the registered vertical built for the
   * contractor, whose profile is loaded from `activeProfiles`; an unknown
   * vertical is a `CalculatorNotFoundError`.
   */
  function GetCalculator(verticalId: string, contractorId: Option<string>, activeProfiles: map<string, Profile>)
    : (r: Result<Calculator, string>)
    ensures r.IsOk() <==> verticalId == "pools"
    ensures r.IsOk() ==> VerticalId(r.value.vertical) == verticalId && r.value.contractorId == contractorId
    ensures r.IsOk() ==> r.value.profile == LoadProfile(contractorId, activeProfiles)
    ensures !r.IsOk() ==> r.error == NotFoundMessage(verticalId)
  {
    var entry := RegistryEntry(verticalId);
    if entry.None? then Err(NotFoundMessage(verticalId))
    else Ok(NewCalculator(entry.value, contractorId, activeProfiles))
  }

  /** A pools calculator without a contractor uses the default percentages. */
  lemma AnonymousCalculatorDefaults(activeProfiles: map<string, Profile>)
    ensures GetCalculator("pools", None, activeProfiles).IsOk()
    ensures GetCalculator("pools", None, activeProfiles).value.profile.None?
  {
  }
}
