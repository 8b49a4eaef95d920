/**
 * Reading the providers and modules selected in `manifest.json`
 * (`getRelatedProviders`, `getRelatedModules`). The manifest itself is an
 * input: the own keys of the relevant objects, in `for...in` order.
 */
module HarmonyManifest {
  import opened Wrappers
  import opened Seqs

  /** An `IRelatedProvider`. */
  datatype RelatedProvider = RelatedProvider(service: string, name: string)

  /** One key of `sdkConfigs` with the own keys of its value. */
  datatype ServiceConfig = ServiceConfig(service: string, names: seq<string>)

  /**
   * `SupportedProviderService[service]`: the rename table of a supported
   * service, or undefined for any other service.
   */
  function ProviderNameMap(service: string): Option<map<string, string>> {
    if service == "oauth" then Some(map[])
    else if service == "payment" then Some(map["weixin" := "wxpay"])
    else None
  }

  /** `ProviderNameMap[name] || name`. */
  function ProviderName(renames: map<string, string>, name: string): string {
    if name in renames && renames[name] != "" then renames[name] else name
  }

  /** The providers one supported service contributes, in key order. */
  function Renamed(service: string, renames: map<string, string>, names: seq<string>): (r: seq<RelatedProvider>)
    ensures |r| == |names|
    ensures forall i :: 0 <= i < |r| ==> r[i] == RelatedProvider(service, ProviderName(renames, names[i]))
  {
    if names == [] then [] else [RelatedProvider(service, ProviderName(renames, names[0]))] + Renamed(service, renames, names[1..])
  }

  lemma {:induction false} RenamedAppend(service: string, renames: map<string, string>, a: seq<string>, b: seq<string>)
    ensures Renamed(service, renames, a + b) == Renamed(service, renames, a) + Renamed(service, renames, b)
  {
    if a == [] {
      assert a + b == b;
    } else {
      assert (a + b)[1..] == a[1..] + b;
      RenamedAppend(service, renames, a[1..], b);
    }
  }

  /** Body of the outer loop of `getRelatedProviders` for one service. */
  function ServiceProviders(config: ServiceConfig): seq<RelatedProvider> {
    match ProviderNameMap(config.service)
    case None => []
    case Some(renames) => Renamed(config.service, renames, config.names)
  }

  /** The result of `getRelatedProviders`; `None` is an absent or falsy `sdkConfigs`. */
  function RelatedProviders(sdkConfigs: Option<seq<ServiceConfig>>): seq<RelatedProvider> {
    match sdkConfigs
    case None => []
    case Some(configs) => FlatMap(ServiceProviders, configs)
  }

  /** The inner `for...in` loop of `getRelatedProviders`: push one provider per name of a supported service. */
  method PushServiceProviders(providers: seq<RelatedProvider>, service: string, renames: map<string, string>, names: seq<string>)
    returns (providers': seq<RelatedProvider>)
    ensures providers' == providers + Renamed(service, renames, names)
  {
    providers' := providers;
    var j := 0;
    while j < |names|
      invariant 0 <= j <= |names|
      invariant providers' == providers + Renamed(service, renames, names[..j])
    {
      var name := names[j];
      providers' := providers' + [RelatedProvider(service, ProviderName(renames, name))];
      assert names[..j + 1] == names[..j] + [name];
      RenamedAppend(service, renames, names[..j], [name]);
      assert Renamed(service, renames, [name]) == [RelatedProvider(service, ProviderName(renames, name))];
      assert providers' == (providers + Renamed(service, renames, names[..j])) + Renamed(service, renames, [name]);
      j := j + 1;
    }
    assert names[..j] == names;
  }

  /** `getRelatedProviders`: the two nested `for...in` loops pushing into `providers`. */
  method GetRelatedProviders(sdkConfigs: Option<seq<ServiceConfig>>) returns (providers: seq<RelatedProvider>)
    ensures providers == RelatedProviders(sdkConfigs)
  {
    providers := [];
    if sdkConfigs.None? {
      return;
    }
    var configs := sdkConfigs.value;
    var i := 0;
    while i < |configs|
      invariant 0 <= i <= |configs|
      invariant providers == FlatMap(ServiceProviders, configs[..i])
    {
      var config := configs[i];
      var renames := ProviderNameMap(config.service);
      if renames.Some? {
        providers := PushServiceProviders(providers, config.service, renames.value, config.names);
      }
      FlatMapStep(ServiceProviders, configs, i);
      i := i + 1;
    }
    assert configs[..i] == configs;
  }

  /**
   * A provider is related exactly when some `oauth` or `payment` entry of the
   * manifest names it, with `payment`/`weixin` renamed to `wxpay`.
   */
  lemma RelatedProvidersMember(configs: seq<ServiceConfig>, p: RelatedProvider)
    ensures p in RelatedProviders(Some(configs)) <==>
      exists i, j :: 0 <= i < |configs| && 0 <= j < |configs[i].names| &&
        (configs[i].service == "oauth" || configs[i].service == "payment") &&
        p == RelatedProvider(configs[i].service, ProviderName(ProviderNameMap(configs[i].service).value, configs[i].names[j]))
  {
    FlatMapMember(ServiceProviders, configs, p);
    if p in RelatedProviders(Some(configs)) {
      var i :| 0 <= i < |configs| && p in ServiceProviders(configs[i]);
      var r := ServiceProviders(configs[i]);
      var j :| 0 <= j < |r| && r[j] == p;
      assert 0 <= j < |configs[i].names|;
    }
  }

  /** Only `oauth` and `payment` survive, and `payment`/`weixin` never does. */
  lemma RelatedProvidersServices(configs: seq<ServiceConfig>, p: RelatedProvider)
    requires p in RelatedProviders(Some(configs))
    ensures p.service == "oauth" || p.service == "payment"
    ensures p.service == "payment" ==> p.name != "weixin"
  {
    RelatedProvidersMember(configs, p);
  }

  /** `SupportedModules`: manifest module key to uni_modules plugin name. */
  const SupportedModules: map<string, string> := map["FacialRecognitionVerify" := "uni-facialRecognitionVerify"]

  /** The modules one manifest key contributes. */
  function SupportedModule(key: string): seq<string> {
    if key in SupportedModules && SupportedModules[key] != "" then [SupportedModules[key]] else []
  }

  /** The result of `getRelatedModules`; `None` is an absent or falsy `modules`. */
  function RelatedModules(manifestModules: Option<seq<string>>): seq<string> {
    match manifestModules
    case None => []
    case Some(keys) => FlatMap(SupportedModule, keys)
  }

  /** `getRelatedModules`: the `for...in` loop pushing into `modules`. */
  method GetRelatedModules(manifestModules: Option<seq<string>>) returns (modules: seq<string>)
    ensures modules == RelatedModules(manifestModules)
  {
    modules := [];
    if manifestModules.None? {
      return;
    }
    var keys := manifestModules.value;
    var i := 0;
    while i < |keys|
      invariant 0 <= i <= |keys|
      invariant modules == FlatMap(SupportedModule, keys[..i])
    {
      var key := keys[i];
      if key in SupportedModules && SupportedModules[key] != "" {
        modules := modules + [SupportedModules[key]];
      }
      FlatMapStep(SupportedModule, keys, i);
      i := i + 1;
    }
    assert keys[..i] == keys;
  }

  /**
   * Only `FacialRecognitionVerify` is known: every related module is
   * `uni-facialRecognitionVerify`, once per occurrence of that key.
   */
  lemma {:induction false} RelatedModulesOnlyFacial(keys: seq<string>)
    ensures RelatedModules(Some(keys)) == seq(Occurrences(keys, "FacialRecognitionVerify"), _ => "uni-facialRecognitionVerify")
  {
    if keys != [] {
      RelatedModulesOnlyFacial(keys[1..]);
      var n := Occurrences(keys[1..], "FacialRecognitionVerify");
      if keys[0] == "FacialRecognitionVerify" {
        assert SupportedModule(keys[0]) == ["uni-facialRecognitionVerify"];
        assert ["uni-facialRecognitionVerify"] + seq(n, _ => "uni-facialRecognitionVerify")
            == seq(n + 1, _ => "uni-facialRecognitionVerify");
      } else {
        assert SupportedModule(keys[0]) == [];
      }
    }
  }
}
