/**
 * The contract every tenant (vertical) configuration fulfils: an ordered list
 * of pipeline step names, a step descriptor per name, four lists of form
 * choices and a prompts module. The descriptor is the dict returned by
 * `get_step_config`; its keys become optional fields here.
 */
module TenantBase {
  import opened Common

  /**
   * A step descriptor. `None` stands for a missing key (or an explicit
   * `None` value, which every reader treats the same way through `.get`).
   */
  datatype StepConfig = StepConfig(
    stepType: Option<string>,
    scopeKey: Option<string>,
    featureName: Option<string>,
    progressWeight: Option<int>,
    description: Option<string>,
    referenceCategory: Option<string>)

  /** The empty descriptor `{}` returned for an unknown step name. */
  const NoConfig := StepConfig(None, None, None, None, None, None)

  function CleanupStep(weight: int, description: string): StepConfig
  {
    StepConfig(Some("cleanup"), None, None, Some(weight), Some(description), None)
  }

  function InsertionStep(scopeKey: Option<string>, feature: string, weight: int, description: string): StepConfig
  {
    StepConfig(Some("insertion"), scopeKey, Some(feature), Some(weight), Some(description), None)
  }

  function QualityCheckStep(weight: int, description: string): StepConfig
  {
    StepConfig(Some("quality_check"), None, None, Some(weight), Some(description), None)
  }

  /** The step types a tenant descriptor may name. */
  const StepTypes: set<string> := {"cleanup", "insertion", "quality_check"}

  /**
   * A descriptor as the base class documents it: a known type; feature name
   * and scope key only on insertion steps; an optional weight within 0..100.
   */
  predicate WellFormedStep(c: StepConfig)
  {
    && c.stepType.Some? && c.stepType.value in StepTypes
    && (c.scopeKey.Some? || c.featureName.Some? ==> c.stepType == Some("insertion"))
    && (c.progressWeight.Some? ==> 0 <= c.progressWeight.value <= 100)
  }

  /** No step name occurs twice. */
  predicate Distinct(steps: seq<string>)
  {
    forall i, j :: 0 <= i < j < |steps| ==> steps[i] != steps[j]
  }

  /**
   * A tenant pipeline: cleanup first, quality check last, every listed step
   * described, no step listed twice.
   */
  predicate WellFormedPipeline(steps: seq<string>, configOf: string -> StepConfig)
  {
    && |steps| >= 2
    && steps[0] == "cleanup" && configOf(steps[0]).stepType == Some("cleanup")
    && steps[|steps| - 1] == "quality_check"
    && configOf(steps[|steps| - 1]).stepType == Some("quality_check")
    && Distinct(steps)
    && forall i :: 0 <= i < |steps| ==> WellFormedStep(configOf(steps[i]))
  }

  /** The progress weights of the listed steps, in pipeline order (0 when absent). */
  function Weights(steps: seq<string>, configOf: string -> StepConfig): (ws: seq<int>)
    ensures |ws| == |steps|
    ensures forall i :: 0 <= i < |steps| ==>
      ws[i] == (if configOf(steps[i]).progressWeight.Some? then configOf(steps[i]).progressWeight.value else 0)
  {
    seq(|steps|, i requires 0 <= i < |steps| =>
      var c := configOf(steps[i]); if c.progressWeight.Some? then c.progressWeight.value else 0)
  }

  /** A form choice, the `(value, label)` tuple of the choice getters. */
  datatype Choice = Choice(id: string, name: string)

  /** The ids of a choice list. */
  function ChoiceIds(cs: seq<Choice>): (ids: seq<string>)
    ensures |ids| == |cs|
    ensures forall i :: 0 <= i < |cs| ==> ids[i] == cs[i].id
  {
    seq(|cs|, i requires 0 <= i < |cs| => cs[i].id)
  }

  /** The four choice lists every tenant supplies. */
  datatype Choices = Choices(mesh: seq<Choice>, frameColor: seq<Choice>, meshColor: seq<Choice>, opacity: seq<Choice>)

  /**
   * A catalog entry. `price` is the entry's pricing figure, which each table
   * stores under its own key (`price_add`, `price_multiplier`,
   * `price_per_sqft`, ...); tables without prices hold 0.
   */
  datatype Item = Item(id: string, name: string, price: real)

  function ItemId(it: Item): string { it.id }

  /** The entry as the full (admin) dict: id, name and the priced key. */
  function PricedRecord(it: Item, priceKey: string): Dict
  {
    map["id" := VStr(it.id), "name" := VStr(it.name), priceKey := VNum(it.price)]
  }

  /** The entry as a dict without pricing. */
  function PublicRecord(it: Item): Dict
  {
    map["id" := VStr(it.id), "name" := VStr(it.name)]
  }

  /**
   * Stripping the priced key from the full dict leaves exactly the public
   * dict: the price is gone and nothing else is lost.
   */
  lemma StripPrice(it: Item, priceKey: string)
    requires priceKey != "id" && priceKey != "name"
    ensures Strip(PricedRecord(it, priceKey), {priceKey}) == PublicRecord(it)
    ensures priceKey !in Strip(PricedRecord(it, priceKey), {priceKey})
  {
    var r := Strip(PricedRecord(it, priceKey), {priceKey});
    assert r.Keys == {"id", "name"};
  }

  /** `[{k: v for k, v in x.items() if k != priceKey} for x in table]`. */
  function StripTable(table: seq<Item>, priceKey: string): (rs: seq<Dict>)
    requires priceKey != "id" && priceKey != "name"
    ensures |rs| == |table|
    ensures forall i :: 0 <= i < |table| ==> priceKey !in rs[i] && rs[i] == PublicRecord(table[i])
  {
    seq(|table|, i requires 0 <= i < |table| =>
      StripPrice(table[i], priceKey); Strip(PricedRecord(table[i], priceKey), {priceKey}))
  }

  /** `[(x['id'], x['name']) for x in table]`. */
  function ItemChoices(table: seq<Item>): (cs: seq<Choice>)
    ensures |cs| == |table|
    ensures forall i :: 0 <= i < |table| ==> cs[i] == Choice(table[i].id, table[i].name)
  {
    seq(|table|, i requires 0 <= i < |table| => Choice(table[i].id, table[i].name))
  }

  /**
   * A catalog lookup with a fallback entry: when the selection names a listed
   * id the chosen entry carries that id, otherwise it is the fallback.
   */
  lemma LookupId(table: seq<Item>, v: Val, fallback: Item)
    ensures HasId(table, ItemId, v) ==>
      v == VStr(FindById(table, ItemId, v, fallback).id) && FindById(table, ItemId, v, fallback) in table
    ensures !HasId(table, ItemId, v) ==> FindById(table, ItemId, v, fallback) == fallback
  {
    FindByIdSpec(table, ItemId, v, fallback);
  }
}
