/**
 * The tenant registry: a table from tenant id to tenant configuration, filled
 * at module load, and the resolution of the active tenant, which is cached
 * after its first defaulted lookup.
 */
module TenantRegistry {
  import opened Common
  import X = Executor
  import StepRegistry

  /** A tenant configuration object. */
  datatype TenantConfig = PoolsTenant | WindowsTenant | RoofsTenant | ScreensTenant | BossTenant

  /** The `tenant_id` property of each configuration. */
  function TenantId(c: TenantConfig): (id: string)
    ensures id != ""
  {
    match c
    case PoolsTenant => "pools"
    case WindowsTenant => "windows"
    case RoofsTenant => "roofs"
    case ScreensTenant => "screens"
    case BossTenant => "boss"
  }

  /** `get_prompts_module` of each configuration. */
  function PromptsModuleOf(c: TenantConfig): StepRegistry.PromptsModule
  {
    match c
    case PoolsTenant => StepRegistry.PoolsModule()
    case WindowsTenant => StepRegistry.WindowsModule()
    case RoofsTenant => StepRegistry.RoofsModule()
    case ScreensTenant => StepRegistry.ScreensModule()
    case BossTenant => StepRegistry.BossModule()
  }

  /** What the pipeline executor reads from each configuration. */
  function ViewOf(c: TenantConfig): X.TenantView
  {
    match c
    case PoolsTenant => X.PoolsView()
    case WindowsTenant => X.WindowsView()
    case RoofsTenant => X.RoofsView()
    case ScreensTenant => X.ScreensView()
    case BossTenant => X.BossView()
  }

  /** `register_tenant` on a table. */
  function Register(registry: map<string, TenantConfig>, c: TenantConfig): map<string, TenantConfig>
  {
    registry[TenantId(c) := c]
  }

  /** The table after module load: pools, windows, roofs and screens, in that order (Boss is not registered). */
  function InitialRegistry(): map<string, TenantConfig>
  {
    Register(Register(Register(Register(map[], PoolsTenant), WindowsTenant), RoofsTenant), ScreensTenant)
  }

  /** The result of a lookup and the cache after it. */
  datatype Resolution = Resolution(result: Result<TenantConfig, PyError>, cache: Option<TenantConfig>)

  /** The id the settings name: `ACTIVE_TENANT`, default 'pools', and 'pools' when it is not registered. */
  function ActiveId(registry: map<string, TenantConfig>, setting: Option<string>): string
  {
    var configured := if setting.Some? then setting.value else "pools";
    if configured in registry then configured else "pools"
  }

  /**
   * `get_tenant_config` against a table and a cache: an explicit non-empty id
   * is looked up (ValueError when unknown); otherwise the cache answers, or
   * the configured tenant is resolved and cached.
   */
  function Resolve(registry: map<string, TenantConfig>, cache: Option<TenantConfig>,
                   tenantId: Option<string>, setting: Option<string>): Resolution
    requires "pools" in registry
  {
    if tenantId.Some? && tenantId.value != "" then
      if tenantId.value in registry then Resolution(Ok(registry[tenantId.value]), cache)
      else Resolution(Err(ValueError("Unknown tenant: " + tenantId.value)), cache)
    else if cache.Some? then Resolution(Ok(cache.value), cache)
    else
      var c := registry[ActiveId(registry, setting)];
      Resolution(Ok(c), Some(c))
  }

  /** The module-level registry and active-tenant cache. */
  class Registry {
    var registry: map<string, TenantConfig>
    var active: Option<TenantConfig>

    /** Every table built by this module has a 'pools' entry: it is registered at load and never removed. */
    ghost predicate Valid()
      reads this
    {
      "pools" in registry
    }

    /** Module load: the four auto-registered tenants, and no cached tenant. */
    constructor()
      ensures Valid()
      ensures registry == InitialRegistry() && active.None?
    {
      registry := map[];
      active := None;
      new;
      RegisterTenant(PoolsTenant);
      RegisterTenant(WindowsTenant);
      RegisterTenant(RoofsTenant);
      RegisterTenant(ScreensTenant);
    }

    /** `register_tenant`: stores the configuration under its id, replacing any previous one. */
    method RegisterTenant(c: TenantConfig)
      modifies this
      ensures registry == Register(old(registry), c)
      ensures active == old(active)
      ensures old(Valid()) ==> Valid()
    {
      registry := registry[TenantId(c) := c];
    }

    /** `get_tenant_config`. */
    method GetTenantConfig(tenantId: Option<string>, setting: Option<string>) returns (r: Result<TenantConfig, PyError>)
      requires Valid()
      modifies this
      ensures Valid() && registry == old(registry)
      ensures r == Resolve(old(registry), old(active), tenantId, setting).result
      ensures active == Resolve(old(registry), old(active), tenantId, setting).cache
    {
      if tenantId.Some? && tenantId.value != "" {
        if tenantId.value !in registry {
          return Err(ValueError("Unknown tenant: " + tenantId.value));
        }
        return Ok(registry[tenantId.value]);
      }
      if active.Some? {
        return Ok(active.value);
      }
      var activeId := if setting.Some? then setting.value else "pools";
      if activeId !in registry {
        activeId := "pools";
      }
      active := Some(registry[activeId]);
      return Ok(active.value);
    }

    /** `get_tenant_prompts`: the configuration's prompts module, or the lookup's error. */
    method GetTenantPrompts(tenantId: Option<string>, setting: Option<string>)
      returns (r: Result<StepRegistry.PromptsModule, PyError>)
      requires Valid()
      modifies this
      ensures Valid() && registry == old(registry)
      ensures var res := Resolve(old(registry), old(active), tenantId, setting);
        (res.result.Ok? ==> r == Ok(PromptsModuleOf(res.result.value))) &&
        (res.result.Err? ==> r == Err(res.result.error))
      ensures active == Resolve(old(registry), old(active), tenantId, setting).cache
    {
      var config := GetTenantConfig(tenantId, setting);
      if config.Err? {
        return Err(config.error);
      }
      return Ok(PromptsModuleOf(config.value));
    }

    /** `get_all_tenants`: a copy of the table; being a value, changing it cannot reach the registry. */
    method GetAllTenants() returns (tenants: map<string, TenantConfig>)
      ensures tenants == registry
    {
      tenants := registry;
    }

    /** `clear_cache`: forgets the active tenant. */
    method ClearCache()
      modifies this
      ensures registry == old(registry) && active.None?
    {
      active := None;
    }
  }

  // ---------------------------------------------------------------------
  // Properties

  /** Module load registers exactly pools, windows, roofs and screens, each under its own id. */
  lemma InitialTenants()
    ensures InitialRegistry().Keys == {"pools", "windows", "roofs", "screens"}
    ensures forall id :: id in InitialRegistry() ==> TenantId(InitialRegistry()[id]) == id
    ensures "boss" !in InitialRegistry()
  {
  }

  /** Registration only adds or replaces the configuration's own id. */
  lemma RegisterKeepsOthers(registry: map<string, TenantConfig>, c: TenantConfig)
    ensures Register(registry, c).Keys == registry.Keys + {TenantId(c)}
    ensures Register(registry, c)[TenantId(c)] == c
    ensures forall id :: id in registry && id != TenantId(c) ==> Register(registry, c)[id] == registry[id]
  {
  }

  /**
   * An explicit id that is not registered raises ValueError and leaves the
   * cache alone; a registered one is returned, also without touching the
   * cache.
   */
  lemma ExplicitLookup(registry: map<string, TenantConfig>, cache: Option<TenantConfig>, id: string, setting: Option<string>)
    requires "pools" in registry && id != ""
    ensures Resolve(registry, cache, Some(id), setting).cache == cache
    ensures Resolve(registry, cache, Some(id), setting).result.Err? <==> id !in registry
    ensures id !in registry ==> Resolve(registry, cache, Some(id), setting).result.error.ValueError?
    ensures id in registry ==> Resolve(registry, cache, Some(id), setting).result == Ok(registry[id])
  {
  }

  /**
   * A defaulted lookup never raises. With a cache it returns the cache;
   * without one it returns the configured tenant when registered, else
   * pools, and caches it, so the next defaulted lookup returns the same
   * configuration whatever the settings then say.
   */
  lemma DefaultLookup(registry: map<string, TenantConfig>, cache: Option<TenantConfig>, setting: Option<string>,
                      later: Option<string>)
    requires "pools" in registry
    ensures var r := Resolve(registry, cache, None, setting);
      r.result.Ok? && r.cache == Some(r.result.value)
    ensures cache.Some? ==> Resolve(registry, cache, None, setting).result == Ok(cache.value)
    ensures cache.None? && setting.Some? && setting.value in registry ==>
      Resolve(registry, cache, None, setting).result == Ok(registry[setting.value])
    ensures cache.None? && (setting.None? || setting.value !in registry) ==>
      Resolve(registry, cache, None, setting).result == Ok(registry["pools"])
    ensures var r := Resolve(registry, cache, None, setting);
      Resolve(registry, r.cache, None, later) == r
  {
  }

  /**
   * With the tables of module load, Boss cannot be asked for by id, and an
   * ACTIVE_TENANT of 'boss' silently resolves to pools.
   */
  lemma BossUnreachable(cache: Option<TenantConfig>)
    ensures Resolve(InitialRegistry(), cache, Some("boss"), None).result.Err?
    ensures Resolve(InitialRegistry(), None, None, Some("boss")).result == Ok(PoolsTenant)
  {
    InitialTenants();
  }

  /** An empty id is treated as no id at all. */
  lemma EmptyIdIsDefault(registry: map<string, TenantConfig>, cache: Option<TenantConfig>, setting: Option<string>)
    requires "pools" in registry
    ensures Resolve(registry, cache, Some(""), setting) == Resolve(registry, cache, None, setting)
  {
  }
}
