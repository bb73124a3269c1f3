/**
 * `AIServiceRegistry`: the providers by name and, per service type, the
 * ordered list of the names of the providers that advertise it.
 */
module AiRegistry {
  import opened Common
  import opened AiInterfaces

  /** No name occurs twice. */
  predicate NoDup(s: seq<string>)
  {
    forall i, j :: 0 <= i < j < |s| ==> s[i] != s[j]
  }

  /** `list.remove(x)` after an `x in list` test: the first occurrence of `x` goes, if there is one. */
  function RemoveFirst(s: seq<string>, x: string): (r: seq<string>)
    ensures forall y :: y in r ==> y in s
    ensures forall y :: y in s && y != x ==> y in r
    ensures x !in s ==> r == s
    ensures NoDup(s) ==> NoDup(r) && x !in r
  {
    if s == [] then []
    else if s[0] == x then
      assert NoDup(s) ==> s[0] !in s[1..];
      s[1..]
    else
      var rest := RemoveFirst(s[1..], x);
      assert NoDup(s) ==> s[0] !in s[1..] && NoDup(s[1..]);
      [s[0]] + rest
  }

  /** The initial mapping: an empty list for each type. */
  function EmptyMappings(): (m: map<ServiceType, seq<string>>)
    ensures forall t: ServiceType :: t in m && m[t] == []
  {
    var m := map[ImageGeneration := [], ComputerVision := [], ImageEnhancement := []];
    assert forall t: ServiceType :: t in m by {
      forall t: ServiceType ensures t in m {
        EveryType(t);
      }
    }
    m
  }

  /** A list without repeats, drawn from a set, is no longer than the set. */
  lemma {:induction false} NoDupBound(s: seq<string>, names: set<string>)
    requires NoDup(s) && forall i :: 0 <= i < |s| ==> s[i] in names
    ensures |s| <= |names|
  {
    if s != [] {
      assert s[0] !in s[1..];
      forall i | 0 <= i < |s[1..]| ensures s[1..][i] in names - {s[0]} {
        assert s[1..][i] == s[i + 1];
      }
      NoDupBound(s[1..], names - {s[0]});
    }
  }

  /** What `get_provider_capabilities` reports for a registered provider. */
  datatype Capability = Capability(providerName: string, availableServices: seq<ServiceType>, isAvailable: bool)

  /** `get_registry_status`, without the provider objects' own descriptions. */
  datatype RegistryStatus = RegistryStatus(
    totalProviders: nat,
    providersByService: map<ServiceType, nat>,
    providerStatus: map<string, Option<Capability>>)

  class ServiceRegistry {
    var providers: map<string, Provider>
    var mappings: map<ServiceType, seq<string>>

    /**
     * Every service type has a list; no list repeats a name; every listed
     * name is a registered provider.
     */
    ghost predicate Valid()
      reads this
    {
      && (forall t: ServiceType :: t in mappings)
      && (forall t: ServiceType :: NoDup(mappings[t]))
      && (forall t: ServiceType, i :: 0 <= i < |mappings[t]| ==> mappings[t][i] in providers)
    }

    /** `_initialize`: no providers, and an empty list per type. */
    constructor ()
      ensures Valid()
      ensures providers == map[]
      ensures forall t: ServiceType :: mappings[t] == []
    {
      providers := map[];
      mappings := EmptyMappings();
    }

    /**
     * `register_provider`: the provider is stored under its name, replacing
     * any earlier one; then the name is appended to the list of each type it
     * advertises that does not hold it yet. When asking for its services
     * raises, the provider stays stored but no list changes.
     */
    method Register(name: string, p: Provider) returns (ok: bool)
      requires Valid()
      modifies this
      ensures Valid()
      ensures ok <==> p.services.Some?
      ensures providers == old(providers)[name := p]
      ensures forall t: ServiceType ::
        (mappings[t] ==
         if ok && t in p.services.value && name !in old(mappings[t]) then old(mappings[t]) + [name] else old(mappings[t]))
    {
      providers := providers[name := p];
      if p.services.None? {
        return false;
      }
      var services := p.services.value;
      var k := 0;
      while k < |services|
        invariant 0 <= k <= |services|
        invariant providers == old(providers)[name := p]
        invariant forall t: ServiceType :: t in mappings
        invariant forall t: ServiceType ::
          (mappings[t] == if t in services[..k] && name !in old(mappings[t]) then old(mappings[t]) + [name] else old(mappings[t]))
      {
        var t := services[k];
        assert services[..k + 1] == services[..k] + [t];
        if name !in mappings[t] {
          mappings := mappings[t := mappings[t] + [name]];
        }
        k := k + 1;
      }
      assert services[..k] == services;
      ok := true;
    }

    /**
     * `unregister_provider`: False and no change for an unknown name;
     * otherwise the name leaves every list and the provider map.
     */
    method Unregister(name: string) returns (ok: bool)
      requires Valid()
      modifies this
      ensures Valid()
      ensures ok <==> name in old(providers)
      ensures !ok ==> providers == old(providers) && mappings == old(mappings)
      ensures ok ==> providers == old(providers) - {name}
      ensures ok ==> forall t: ServiceType :: mappings[t] == RemoveFirst(old(mappings[t]), name)
      ensures forall t: ServiceType :: name !in mappings[t]
    {
      if name !in providers {
        return false;
      }
      var k := 0;
      while k < |ALL_TYPES|
        invariant 0 <= k <= |ALL_TYPES|
        invariant providers == old(providers)
        invariant mappings.Keys == old(mappings).Keys
        invariant forall j :: 0 <= j < k ==> mappings[ALL_TYPES[j]] == RemoveFirst(old(mappings)[ALL_TYPES[j]], name)
        invariant forall j :: k <= j < |ALL_TYPES| ==> mappings[ALL_TYPES[j]] == old(mappings)[ALL_TYPES[j]]
      {
        var t := ALL_TYPES[k];
        if name in mappings[t] {
          mappings := mappings[t := RemoveFirst(mappings[t], name)];
        }
        k := k + 1;
      }
      forall t: ServiceType ensures mappings[t] == RemoveFirst(old(mappings)[t], name) {
        EveryType(t);
      }
      providers := providers - {name};
      forall t: ServiceType, i | 0 <= i < |mappings[t]| ensures mappings[t][i] in providers {
        assert mappings[t][i] in old(mappings)[t];
      }
      ok := true;
    }

    /** `get_provider`. */
    function GetProvider(name: string): Option<Provider>
      reads this
    {
      if name in providers then Some(providers[name]) else None
    }

    /** `get_providers_for_service`: a copy of the type's list, or [] for a type without one. */
    function ProvidersFor(t: ServiceType): seq<string>
      reads this
    {
      if t in mappings then mappings[t] else []
    }

    /**
     * `find_best_provider`: the first provider listed for the type, whatever
     * the requirements, or None when there is none.
     */
    function FindBest(t: ServiceType, requirements: Option<Dict>): (r: Option<string>)
      reads this
      ensures r.None? <==> ProvidersFor(t) == []
      ensures r.Some? ==> r.value == ProvidersFor(t)[0]
      ensures Valid() && r.Some? ==> r.value in providers
    {
      var available := ProvidersFor(t);
      if available == [] then None
      else if requirements.None? || requirements.value == map[] then Some(available[0])
      else Some(available[0])
    }

    /**
     * `get_provider_capabilities`: nothing (`{}`) for an unknown name; for a
     * provider whose services cannot be read, an unavailable entry.
     */
    function Capabilities(name: string): (r: Option<Capability>)
      reads this
      ensures r.None? <==> name !in providers
      ensures r.Some? ==> r.value.providerName == name
      ensures r.Some? ==> (r.value.isAvailable <==> providers[name].services.Some?)
      ensures r.Some? && r.value.isAvailable ==> r.value.availableServices == providers[name].services.value
      ensures r.Some? && !r.value.isAvailable ==> r.value.availableServices == []
    {
      if name !in providers then None
      else match providers[name].services
        case Some(services) => Some(Capability(name, services, true))
        case None => Some(Capability(name, [], false))
    }

    /** `get_registry_status`: the number of providers, each type's list length and each provider's capabilities. */
    function Status(): (s: RegistryStatus)
      reads this
      ensures s.totalProviders == |providers|
      ensures s.providersByService.Keys == mappings.Keys
      ensures forall t :: t in mappings ==> s.providersByService[t] == |mappings[t]|
      ensures s.providerStatus.Keys == providers.Keys
    {
      RegistryStatus(|providers|,
        map t | t in mappings :: |mappings[t]|,
        map n | n in providers :: Capabilities(n))
    }

    /** `clear_registry`: no providers, and every type's list emptied. */
    method Clear()
      requires Valid()
      modifies this
      ensures Valid()
      ensures providers == map[]
      ensures forall t: ServiceType :: mappings[t] == []
    {
      providers := map[];
      mappings := EmptyMappings();
    }

    /** No type lists more providers than are registered. */
    lemma ListsBounded(t: ServiceType)
      requires Valid()
      ensures |ProvidersFor(t)| <= |providers|
    {
      NoDupBound(mappings[t], providers.Keys);
    }
  }

  /**
   * Registering a provider makes it the best choice for each type it
   * advertises when nothing else was listed there, and unregistering it
   * again leaves every type without providers.
   */
  method RegisterThenUnregister(name: string, p: Provider) returns (best: Option<string>, after: Option<string>)
    requires p.services.Some? && ImageGeneration in p.services.value
    ensures best == Some(name) && after.None?
  {
    var registry := new ServiceRegistry();
    var ok := registry.Register(name, p);
    best := registry.FindBest(ImageGeneration, None);
    ok := registry.Unregister(name);
    assert registry.mappings[ImageGeneration] == RemoveFirst([name], name) == [];
    after := registry.FindBest(ImageGeneration, None);
  }
}
