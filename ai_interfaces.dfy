/**
 * The shapes shared by the AI-service layer: the service types and their
 * string values, a service configuration, a service result and its
 * metadata, and a provider as the registry sees it.
 */
module AiInterfaces {
  import opened Common
  import X = Executor

  /** `AIServiceType`. */
  datatype ServiceType = ImageGeneration | ComputerVision | ImageEnhancement

  /** Every service type, in declaration order. */
  const ALL_TYPES: seq<ServiceType> := [ImageGeneration, ComputerVision, ImageEnhancement]

  /** Every service type is one of the three. */
  lemma EveryType(t: ServiceType)
    ensures t in ALL_TYPES
  {
    match t
    case ImageGeneration => assert ALL_TYPES[0] == t;
    case ComputerVision => assert ALL_TYPES[1] == t;
    case ImageEnhancement => assert ALL_TYPES[2] == t;
  }

  /** `AIServiceType.value`. */
  function TypeValue(t: ServiceType): string
  {
    match t
    case ImageGeneration => "image_generation"
    case ComputerVision => "computer_vision"
    case ImageEnhancement => "image_enhancement"
  }

  /** `AIServiceType(v)`: the member whose value is `v`; any other value raises ValueError. */
  function ParseType(v: Val): (r: Option<ServiceType>)
    ensures r.Some? <==> exists t :: v == VStr(TypeValue(t))
    ensures r.Some? ==> v == VStr(TypeValue(r.value))
  {
    if v == VStr("image_generation") then
      assert v == VStr(TypeValue(ImageGeneration));
      Some(ImageGeneration)
    else if v == VStr("computer_vision") then
      assert v == VStr(TypeValue(ComputerVision));
      Some(ComputerVision)
    else if v == VStr("image_enhancement") then
      assert v == VStr(TypeValue(ImageEnhancement));
      Some(ImageEnhancement)
    else None
  }

  /** The value of a type parses back to the type. */
  lemma ParseTypeValue(t: ServiceType)
    ensures ParseType(VStr(TypeValue(t))) == Some(t)
  {
  }

  /** `ProcessingStatus`. */
  datatype ProcessingStatus = Pending | Processing | Completed | Failed

  /**
   * `AIServiceConfig`. The type is `None` when the field holds something
   * other than an `AIServiceType`; the other fields hold whatever value
   * they were given, since a config built from a dict takes them unchecked.
   */
  datatype ServiceConfig = ServiceConfig(
    serviceName: string,
    serviceType: Option<ServiceType>,
    apiKey: Val,
    apiEndpoint: Val,
    modelName: Val,
    maxRequestsPerMinute: Val,
    timeoutSeconds: Val,
    additionalParams: Val)

  /** `AIServiceConfig(service_name=..., service_type=...)` with every other field at its default. */
  function DefaultConfig(name: string, t: ServiceType): ServiceConfig
  {
    ServiceConfig(name, Some(t), VNone, VNone, VNone, VNum(60.0), VNum(30.0), VObj({}))
  }

  /** A value in a result's metadata: the bytes of an encoded image, or a plain value. */
  datatype MetaVal = Bytes(image: X.Image) | Plain(v: Val)

  /** `AIServiceResult`, with the fields the core sets. */
  datatype ServiceResult = ServiceResult(
    success: bool,
    status: ProcessingStatus,
    message: string,
    metadata: map<string, MetaVal>)

  /** An image-generation service created by a provider, with the configuration it was given. */
  datatype Service = Service(serviceType: ServiceType, config: ServiceConfig)

  /**
   * A provider as the registry and the factory use it: an identity, the
   * service types it advertises (`None` when `get_available_services`
   * raises) and its `create_service`, which may raise.
   */
  datatype Provider = Provider(
    id: nat,
    services: Option<seq<ServiceType>>,
    create: (ServiceType, ServiceConfig) -> Result<Service, string>)
}
