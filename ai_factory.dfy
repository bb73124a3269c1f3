/**
 * `AIServiceFactory`: picks a provider from the registry, a configuration
 * from the caller, the configuration manager or the defaults, and asks the
 * provider for a service of the wanted type. Every failure, raised or not,
 * reads as no service.
 */
module AiFactory {
  import opened Common
  import opened AiInterfaces
  import opened AiRegistry
  import opened AiConfig

  /**
   * The provider a creation uses: the caller's name when it is non-empty,
   * else the registry's best provider for the type.
   */
  function ChosenName(t: ServiceType, providerName: Option<string>, requirements: Option<Dict>,
                      registry: ServiceRegistry): (r: Option<string>)
    reads registry
    ensures providerName.Some? && providerName.value != "" ==> r == providerName
    ensures (providerName.None? || providerName.value == "") ==> r == registry.FindBest(t, requirements)
  {
    if providerName.Some? && providerName.value != "" then providerName
    else registry.FindBest(t, requirements)
  }

  /**
   * The configuration a creation uses: the caller's, else the manager's for
   * that provider name, else a default one of the requested type.
   */
  function ConfigFor(t: ServiceType, name: string, config: Option<ServiceConfig>, manager: ConfigManager): (c: ServiceConfig)
    reads manager
    ensures config.Some? ==> c == config.value
    ensures config.None? && name in manager.configs ==> c == manager.configs[name]
    ensures config.None? && name !in manager.configs ==> c == DefaultConfig(name, t) && ValidateConfig(c) == (name != "")
  {
    if config.Some? then config.value
    else match manager.GetConfig(name)
      case Some(c) => c
      case None => DefaultConfig(name, t)
  }

  /**
   * `create_image_generation_service` (for `t` = image generation) and
   * `create_vision_service` (for `t` = computer vision): a service exactly
   * when a non-empty provider name is chosen, that provider is registered,
   * and its `create_service` succeeds for `t` with the chosen configuration.
   */
  function CreateService(t: ServiceType, providerName: Option<string>, config: Option<ServiceConfig>,
                         requirements: Option<Dict>, registry: ServiceRegistry, manager: ConfigManager): (r: Option<Service>)
    reads registry, manager
    ensures r.Some? <==>
      var name := ChosenName(t, providerName, requirements, registry);
      && name.Some? && name.value != "" && name.value in registry.providers
      && registry.providers[name.value].create(t, ConfigFor(t, name.value, config, manager)).Ok?
    ensures r.Some? ==>
      var name := ChosenName(t, providerName, requirements, registry).value;
      Ok(r.value) == registry.providers[name].create(t, ConfigFor(t, name, config, manager))
    ensures registry.Valid() && (providerName.None? || providerName.value == "") && registry.ProvidersFor(t) == [] ==>
      r.None?
  {
    match ChosenName(t, providerName, requirements, registry)
    case None => None
    case Some(name) =>
      if name == "" then None
      else match registry.GetProvider(name)
        case None => None
        case Some(p) =>
          match p.create(t, ConfigFor(t, name, config, manager))
          case Ok(s) => Some(s)
          case Err(_) => None
  }

  /**
   * `create_service_by_type`: generation and vision go to their own
   * creation; enhancement tries generation and falls back to vision.
   */
  function CreateByType(t: ServiceType, providerName: Option<string>, config: Option<ServiceConfig>,
                        requirements: Option<Dict>, registry: ServiceRegistry, manager: ConfigManager): (r: Option<Service>)
    reads registry, manager
    ensures t != ImageEnhancement ==> r == CreateService(t, providerName, config, requirements, registry, manager)
    ensures t == ImageEnhancement ==>
      r == (var gen := CreateService(ImageGeneration, providerName, config, requirements, registry, manager);
            if gen.Some? then gen else CreateService(ComputerVision, providerName, config, requirements, registry, manager))
    ensures r.Some? <==>
      (t == ImageEnhancement &&
       CreateService(ImageGeneration, providerName, config, requirements, registry, manager).Some?) ||
      CreateService(if t == ImageEnhancement then ComputerVision else t, providerName, config, requirements,
                    registry, manager).Some?
  {
    match t
    case ImageGeneration => CreateService(ImageGeneration, providerName, config, requirements, registry, manager)
    case ComputerVision => CreateService(ComputerVision, providerName, config, requirements, registry, manager)
    case ImageEnhancement =>
      var gen := CreateService(ImageGeneration, providerName, config, requirements, registry, manager);
      if gen.Some? then gen
      else CreateService(ComputerVision, providerName, config, requirements, registry, manager)
  }

  /** `get_available_providers`: the capabilities of each provider listed for the type. */
  function AvailableProviders(t: ServiceType, registry: ServiceRegistry): (r: map<string, Option<Capability>>)
    reads registry
    ensures forall n :: n in r <==> n in registry.ProvidersFor(t)
    ensures forall n :: n in r ==> r[n] == registry.Capabilities(n)
    ensures registry.Valid() ==> forall n :: n in r ==> r[n].Some?
  {
    map n | n in registry.ProvidersFor(t) :: registry.Capabilities(n)
  }

  /** `get_factory_status`. */
  datatype FactoryStatus = FactoryStatus(
    factoryVersion: string,
    registryStatus: RegistryStatus,
    supportedServiceTypes: seq<string>,
    totalAvailableServices: nat)

  /** The type values, in declaration order. */
  function TypeValues(): (vs: seq<string>)
    ensures |vs| == |ALL_TYPES| && forall i :: 0 <= i < |vs| ==> vs[i] == TypeValue(ALL_TYPES[i])
  {
    ["image_generation", "computer_vision", "image_enhancement"]
  }

  /**
   * `get_factory_status`: version 1.0.0, the registry's status, the type
   * values, and the total of the per-type list lengths.
   */
  function Status(registry: ServiceRegistry): (s: FactoryStatus)
    reads registry
    requires registry.Valid()
    ensures s.factoryVersion == "1.0.0" && s.registryStatus == registry.Status()
    ensures s.supportedServiceTypes == TypeValues()
    ensures s.totalAvailableServices ==
      |registry.ProvidersFor(ImageGeneration)| + |registry.ProvidersFor(ComputerVision)| +
      |registry.ProvidersFor(ImageEnhancement)|
  {
    var rs := registry.Status();
    FactoryStatus("1.0.0", rs, TypeValues(),
      rs.providersByService[ImageGeneration] + rs.providersByService[ComputerVision] +
      rs.providersByService[ImageEnhancement])
  }

  /** Each provider is counted at most once per type, so the total is at most three per provider. */
  lemma TotalBounded(registry: ServiceRegistry)
    requires registry.Valid()
    ensures Status(registry).totalAvailableServices <= |ALL_TYPES| * |registry.providers|
  {
    registry.ListsBounded(ImageGeneration);
    registry.ListsBounded(ComputerVision);
    registry.ListsBounded(ImageEnhancement);
  }
}
