/**
 * `AIServiceConfigManager`: the in-memory map from service name to
 * configuration, how a configuration is read from a dict and written back,
 * and the validity rules a configuration must meet.
 */
module AiConfig {
  import opened Common
  import opened AiInterfaces

  /**
   * `_create_config_from_dict`: the type defaults to 'image_generation' and
   * must be one of the type values, else the whole entry is dropped; the
   * limits default to 60 requests per minute and 30 seconds, the extra
   * parameters to {} (also when given as None), the rest to None.
   */
  function CreateConfigFromDict(name: string, data: Dict): (r: Option<ServiceConfig>)
    ensures r.Some? <==> ParseType(Get(data, "service_type", VStr("image_generation"))).Some?
    ensures "service_type" !in data ==> r.Some? && r.value.serviceType == Some(ImageGeneration)
    ensures r.Some? ==>
      && r.value.serviceName == name
      && r.value.serviceType == ParseType(Get(data, "service_type", VStr("image_generation")))
      && r.value.apiKey == GetOpt(data, "api_key")
      && r.value.apiEndpoint == GetOpt(data, "api_endpoint")
      && r.value.modelName == GetOpt(data, "model_name")
      && r.value.maxRequestsPerMinute == Get(data, "max_requests_per_minute", VNum(60.0))
      && r.value.timeoutSeconds == Get(data, "timeout_seconds", VNum(30.0))
      && !r.value.additionalParams.VNone?
  {
    var t := ParseType(Get(data, "service_type", VStr("image_generation")));
    if t.None? then None
    else
      var given := Get(data, "additional_params", VObj({}));
      var params := if given.VNone? then VObj({}) else given;
      Some(ServiceConfig(name, t, GetOpt(data, "api_key"), GetOpt(data, "api_endpoint"), GetOpt(data, "model_name"),
                         Get(data, "max_requests_per_minute", VNum(60.0)), Get(data, "timeout_seconds", VNum(30.0)),
                         params))
  }

  /**
   * `validate_config` (and the factory's `validate_service_config`, which
   * applies the same rules): a non-empty name, a service type, and positive
   * limits; a limit that cannot be compared with 0 makes the check raise,
   * which reads as invalid.
   */
  function ValidateConfig(c: ServiceConfig): (ok: bool)
    ensures ok <==> c.serviceName != "" && c.serviceType.Some? &&
                    PyPositive(c.maxRequestsPerMinute) == Ok(true) && PyPositive(c.timeoutSeconds) == Ok(true)
  {
    if c.serviceName == "" then false
    else if c.serviceType.None? then false
    else match PyPositive(c.maxRequestsPerMinute)
      case Err(_) => false
      case Ok(rpmPositive) =>
        if !rpmPositive then false
        else match PyPositive(c.timeoutSeconds)
          case Err(_) => false
          case Ok(timeoutPositive) => timeoutPositive
  }

  /** A configuration built with only a name and a type is valid exactly when the name is non-empty. */
  lemma DefaultConfigValid(name: string, t: ServiceType)
    ensures ValidateConfig(DefaultConfig(name, t)) <==> name != ""
  {
  }

  /** An empty dict gives a generation configuration that is valid exactly when the name is non-empty. */
  lemma EmptyDictConfig(name: string)
    ensures CreateConfigFromDict(name, map[]).Some?
    ensures ValidateConfig(CreateConfigFromDict(name, map[]).value) <==> name != ""
  {
  }

  /** What `save_to_file` writes for one configuration: every field but the API key. */
  function SavedDict(c: ServiceConfig): (d: Dict)
    requires c.serviceType.Some?
    ensures "api_key" !in d
    ensures d.Keys == {"service_type", "api_endpoint", "model_name", "max_requests_per_minute",
                       "timeout_seconds", "additional_params"}
  {
    map["service_type" := VStr(TypeValue(c.serviceType.value)),
        "api_endpoint" := c.apiEndpoint,
        "model_name" := c.modelName,
        "max_requests_per_minute" := c.maxRequestsPerMinute,
        "timeout_seconds" := c.timeoutSeconds,
        "additional_params" := c.additionalParams]
  }

  /** Reading a saved entry back gives the configuration it came from, without its API key. */
  lemma SaveLoadRoundTrip(c: ServiceConfig)
    requires c.serviceType.Some? && !c.additionalParams.VNone?
    ensures CreateConfigFromDict(c.serviceName, SavedDict(c)) == Some(c.(apiKey := VNone))
  {
    ParseTypeValue(c.serviceType.value);
  }

  /** The configurations after loading the (name, dict) entries in order; invalid entries are skipped. */
  function Loaded(configs: map<string, ServiceConfig>, entries: seq<(string, Dict)>): map<string, ServiceConfig>
    decreases |entries|
  {
    if entries == [] then configs
    else
      var c := CreateConfigFromDict(entries[0].0, entries[0].1);
      Loaded(if c.Some? then configs[entries[0].0 := c.value] else configs, entries[1..])
  }

  /** A name is configured after loading iff it was before or some entry for it was valid. */
  lemma {:induction false} LoadedNames(configs: map<string, ServiceConfig>, entries: seq<(string, Dict)>, n: string)
    ensures n in Loaded(configs, entries) <==>
      n in configs || exists i :: 0 <= i < |entries| && entries[i].0 == n && CreateConfigFromDict(entries[i].0, entries[i].1).Some?
    decreases |entries|
  {
    if entries != [] {
      var c := CreateConfigFromDict(entries[0].0, entries[0].1);
      var next := if c.Some? then configs[entries[0].0 := c.value] else configs;
      LoadedNames(next, entries[1..], n);
      if exists i :: 0 <= i < |entries| && entries[i].0 == n && CreateConfigFromDict(entries[i].0, entries[i].1).Some? {
        var i :| 0 <= i < |entries| && entries[i].0 == n && CreateConfigFromDict(entries[i].0, entries[i].1).Some?;
        if i > 0 {
          assert entries[1..][i - 1] == entries[i];
        }
      }
      if exists i :: 0 <= i < |entries[1..]| && entries[1..][i].0 == n &&
                     CreateConfigFromDict(entries[1..][i].0, entries[1..][i].1).Some? {
        var i :| 0 <= i < |entries[1..]| && entries[1..][i].0 == n &&
                 CreateConfigFromDict(entries[1..][i].0, entries[1..][i].1).Some?;
        assert entries[i + 1] == entries[1..][i];
      }
    }
  }

  /** `get_config_status`. */
  datatype ConfigStatus = ConfigStatus(totalConfigs: nat, configsByType: map<ServiceType, nat>, configuredServices: set<string>)

  class ConfigManager {
    var configs: map<string, ServiceConfig>

    /** A manager with nothing loaded yet. */
    constructor ()
      ensures configs == map[]
    {
      configs := map[];
    }

    /**
     * The loop of `_load_from_django_settings` and `_load_from_file`: each
     * entry whose dict makes a configuration is stored under its name.
     */
    method LoadEntries(entries: seq<(string, Dict)>)
      modifies this
      ensures configs == Loaded(old(configs), entries)
    {
      var k := 0;
      while k < |entries|
        invariant 0 <= k <= |entries|
        invariant Loaded(configs, entries[k..]) == Loaded(old(configs), entries)
      {
        assert entries[k..][1..] == entries[k + 1..];
        var c := CreateConfigFromDict(entries[k].0, entries[k].1);
        if c.Some? {
          configs := configs[entries[k].0 := c.value];
        }
        k := k + 1;
      }
    }

    /** `get_config`. */
    function GetConfig(name: string): Option<ServiceConfig>
      reads this
    {
      if name in configs then Some(configs[name]) else None
    }

    /** `set_config`: that one name now maps to the configuration; every other entry is untouched. */
    method SetConfig(name: string, c: ServiceConfig)
      modifies this
      ensures configs == old(configs)[name := c]
      ensures GetConfig(name) == Some(c)
      ensures forall n :: n != name ==> GetConfig(n) == old(GetConfig(n))
    {
      configs := configs[name := c];
    }

    /** `get_configs_by_type`: exactly the entries whose type is `t`. */
    function ConfigsByType(t: ServiceType): (r: map<string, ServiceConfig>)
      reads this
      ensures forall n :: n in r <==> n in configs && configs[n].serviceType == Some(t)
      ensures forall n :: n in r ==> r[n] == configs[n]
    {
      map n | n in configs && configs[n].serviceType == Some(t) :: configs[n]
    }

    /**
     * `save_to_file`: the saved form of every entry, or nothing when some
     * entry has no service type, which makes the save fail.
     */
    function SaveData(): (r: Option<map<string, Dict>>)
      reads this
      ensures r.Some? <==> forall n :: n in configs ==> configs[n].serviceType.Some?
      ensures r.Some? ==> r.value.Keys == configs.Keys
      ensures r.Some? ==> forall n :: n in r.value ==> "api_key" !in r.value[n]
    {
      if forall n :: n in configs ==> configs[n].serviceType.Some? then
        Some(map n | n in configs :: SavedDict(configs[n]))
      else None
    }

    /** `get_config_status`: the count, the per-type counts and the configured names. */
    function Status(): (s: ConfigStatus)
      reads this
      ensures s.totalConfigs == |configs| && s.configuredServices == configs.Keys
      ensures forall t: ServiceType :: t in s.configsByType && s.configsByType[t] == |ConfigsByType(t)|
    {
      var byType := map[ImageGeneration := |ConfigsByType(ImageGeneration)|,
                        ComputerVision := |ConfigsByType(ComputerVision)|,
                        ImageEnhancement := |ConfigsByType(ImageEnhancement)|];
      assert forall t: ServiceType :: t in byType && byType[t] == |ConfigsByType(t)| by {
        forall t: ServiceType ensures t in byType && byType[t] == |ConfigsByType(t)| {
          EveryType(t);
        }
      }
      ConfigStatus(|configs|, byType, configs.Keys)
    }

    /** The per-type counts never add up to more than the number of configurations. */
    lemma TypeCountsBounded()
      ensures |ConfigsByType(ImageGeneration)| + |ConfigsByType(ComputerVision)| + |ConfigsByType(ImageEnhancement)|
              <= |configs|
    {
      var a := ConfigsByType(ImageGeneration).Keys;
      var b := ConfigsByType(ComputerVision).Keys;
      var c := ConfigsByType(ImageEnhancement).Keys;
      assert a * b == {} && (a + b) * c == {};
      assert |a + b| == |a| + |b|;
      assert |a + b + c| == |a + b| + |c|;
      SubsetCard(a + b + c, configs.Keys);
    }
  }

  /** A subset is no larger than its superset. */
  lemma {:induction false} SubsetCard(a: set<string>, b: set<string>)
    requires a <= b
    ensures |a| <= |b|
    decreases |a|
  {
    if a != {} {
      var x :| x in a;
      SubsetCard(a - {x}, b - {x});
    }
  }
}
