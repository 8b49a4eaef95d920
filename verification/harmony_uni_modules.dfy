/**
 * The in-memory part of `genAppHarmonyUniModules`: the import, ext-API and
 * registration lines of `index.generated.ets`, the project dependencies of
 * the related modules and providers, and the `dependencies` record and
 * `modules` list of the generated package files. The plugin set, the result
 * of `parseUniExtApi` per plugin, the manifest, the registered providers and
 * the standalone ext-API list are inputs; `camelize` and
 * `formatExtApiProviderName` are function parameters.
 */
module HarmonyUniModules {
  import opened Wrappers
  import opened Seqs
  import opened Strings
  import opened HarmonyManifest

  /** `@uni_modules/<plugin in lower case>`. */
  function UniModulesSpecifier(plugin: string): string {
    "@uni_modules/" + ToLower(plugin)
  }

  // ----- Compiled UTS plugins --------------------------------------------

  /** A value of the record returned by `parseUniExtApi`: a name, or an array `[source, apiName, ...]`. */
  datatype Inject = InjectName(name: string) | InjectArray(items: seq<string>)

  /** Lines pushed to `importCodes`, `extApiCodes` and `registerCodes`. */
  datatype Codes = Codes(imports: seq<string>, extApis: seq<string>, registers: seq<string>) {
    function Then(next: Codes): Codes {
      Codes(imports + next.imports, extApis + next.extApis, registers + next.registers)
    }
  }

  const NoCodes := Codes([], [], [])

  /** One inject: an array of length at least two gives an import and an assignment on `uni`. */
  function InjectCodes(pkg: string, inject: Inject): Codes {
    if inject.InjectArray? && |inject.items| > 1 then
      var apiName := inject.items[1];
      Codes(["import { " + apiName + " } from '" + pkg + "'"], ["uni." + apiName + " = " + apiName], [])
    else NoCodes
  }

  /** The inner `forEach` over the keys of `injects`. */
  function InjectsCodes(pkg: string, injects: seq<Inject>): Codes {
    if injects == [] then NoCodes
    else InjectsCodes(pkg, injects[..|injects| - 1]).Then(InjectCodes(pkg, injects[|injects| - 1]))
  }

  /** One plugin: its injects, or when `parseUniExtApi` found none, a namespace import and a registration. */
  function PluginCodes(plugin: string, injects: Option<seq<Inject>>, camelize: string -> string): Codes {
    var pkg := UniModulesSpecifier(plugin);
    match injects
    case Some(values) => InjectsCodes(pkg, values)
    case None =>
      var ident := camelize(plugin);
      Codes(["import * as " + ident + " from '" + pkg + "'"], [],
            ["uni.registerUTSPlugin('uni_modules/" + plugin + "', " + ident + ")"])
  }

  /** The outer `utsPlugins.forEach`. */
  function AllPluginCodes(plugins: seq<string>, injectsOf: string -> Option<seq<Inject>>, camelize: string -> string): Codes {
    if plugins == [] then NoCodes
    else
      var last := plugins[|plugins| - 1];
      AllPluginCodes(plugins[..|plugins| - 1], injectsOf, camelize).Then(PluginCodes(last, injectsOf(last), camelize))
  }

  /** Every import line is paired with exactly one ext-API assignment or one plugin registration. */
  lemma {:induction false} InjectsCodesPaired(pkg: string, injects: seq<Inject>)
    ensures var c := InjectsCodes(pkg, injects);
      |c.imports| == |c.extApis| && c.registers == []
  {
    if injects != [] {
      InjectsCodesPaired(pkg, injects[..|injects| - 1]);
    }
  }

  lemma {:induction false} AllPluginCodesPaired(plugins: seq<string>, injectsOf: string -> Option<seq<Inject>>, camelize: string -> string)
    ensures var c := AllPluginCodes(plugins, injectsOf, camelize);
      |c.imports| == |c.extApis| + |c.registers|
  {
    if plugins != [] {
      var last := plugins[|plugins| - 1];
      AllPluginCodesPaired(plugins[..|plugins| - 1], injectsOf, camelize);
      if injectsOf(last).Some? {
        InjectsCodesPaired(UniModulesSpecifier(last), injectsOf(last).value);
      }
    }
  }

  lemma InjectsCodesStep(pkg: string, values: seq<Inject>, j: nat)
    requires j < |values|
    ensures InjectsCodes(pkg, values[..j + 1]) == InjectsCodes(pkg, values[..j]).Then(InjectCodes(pkg, values[j]))
  {
    assert values[..j + 1][..j] == values[..j];
  }

  lemma AllPluginCodesStep(plugins: seq<string>, i: nat, injectsOf: string -> Option<seq<Inject>>, camelize: string -> string)
    requires i < |plugins|
    ensures AllPluginCodes(plugins[..i + 1], injectsOf, camelize)
         == AllPluginCodes(plugins[..i], injectsOf, camelize).Then(PluginCodes(plugins[i], injectsOf(plugins[i]), camelize))
  {
    assert plugins[..i + 1][..i] == plugins[..i];
  }

  /** The `forEach` over the keys of one plugin's `injects`. */
  method CollectInjectCodes(hamonyPackageName: string, values: seq<Inject>) returns (importCodes: seq<string>, extApiCodes: seq<string>)
    ensures Codes(importCodes, extApiCodes, []) == InjectsCodes(hamonyPackageName, values)
  {
    importCodes, extApiCodes := [], [];
    var j := 0;
    while j < |values|
      invariant 0 <= j <= |values|
      invariant Codes(importCodes, extApiCodes, []) == InjectsCodes(hamonyPackageName, values[..j])
    {
      var inject := values[j];
      if inject.InjectArray? && |inject.items| > 1 {
        var apiName := inject.items[1];
        importCodes := importCodes + ["import { " + apiName + " } from '" + hamonyPackageName + "'"];
        extApiCodes := extApiCodes + ["uni." + apiName + " = " + apiName];
      }
      InjectsCodesStep(hamonyPackageName, values, j);
      j := j + 1;
    }
    assert values[..j] == values;
  }

  /** The loop over `utsPlugins` at the start of `genAppHarmonyUniModules`. */
  method CollectPluginCodes(utsPlugins: seq<string>, injectsOf: string -> Option<seq<Inject>>, camelize: string -> string)
    returns (importCodes: seq<string>, extApiCodes: seq<string>, registerCodes: seq<string>)
    ensures Codes(importCodes, extApiCodes, registerCodes) == AllPluginCodes(utsPlugins, injectsOf, camelize)
  {
    importCodes, extApiCodes, registerCodes := [], [], [];
    var i := 0;
    while i < |utsPlugins|
      invariant 0 <= i <= |utsPlugins|
      invariant Codes(importCodes, extApiCodes, registerCodes) == AllPluginCodes(utsPlugins[..i], injectsOf, camelize)
    {
      var plugin := utsPlugins[i];
      var injects := injectsOf(plugin);
      var hamonyPackageName := "@uni_modules/" + ToLower(plugin);
      ghost var before := Codes(importCodes, extApiCodes, registerCodes);
      if injects.Some? {
        var imports, extApis := CollectInjectCodes(hamonyPackageName, injects.value);
        importCodes := importCodes + imports;
        extApiCodes := extApiCodes + extApis;
      } else {
        var ident := camelize(plugin);
        importCodes := importCodes + ["import * as " + ident + " from '" + hamonyPackageName + "'"];
        registerCodes := registerCodes + ["uni.registerUTSPlugin('uni_modules/" + plugin + "', " + ident + ")"];
      }
      assert Codes(importCodes, extApiCodes, registerCodes) == before.Then(PluginCodes(plugin, injects, camelize));
      AllPluginCodesStep(utsPlugins, i, injectsOf, camelize);
      i := i + 1;
    }
    assert utsPlugins[..i] == utsPlugins;
  }

  // ----- Related modules -------------------------------------------------

  /** Where a project dependency comes from. */
  datatype Source = Local | Ohpm

  /** An entry of `projectDeps`. */
  datatype ProjectDep = ProjectDep(moduleSpecifier: string, plugin: string, source: Source, version: Option<string>)

  /** An entry of `standalone-ext-apis.json` (`kind` is its `type` field). */
  datatype StandaloneExtApi = StandaloneExtApi(plugin: string, version: string, kind: string)

  /** `StandaloneExtApis.find((item) => item.plugin === plugin)`. */
  function StandaloneFor(standalone: seq<StandaloneExtApi>, plugin: string): Option<StandaloneExtApi> {
    Find(standalone, (e: StandaloneExtApi) => e.plugin == plugin)
  }

  /** The dependency a related module gets: local, published on ohpm, or none. */
  function ModuleDep(related: string, utsPlugins: seq<string>, standalone: seq<StandaloneExtApi>): (r: Option<ProjectDep>)
    ensures related in utsPlugins ==> r == Some(ProjectDep(UniModulesSpecifier(related), related, Local, None))
    ensures related !in utsPlugins ==> (r.Some? <==> exists i :: 0 <= i < |standalone| && standalone[i].plugin == related)
    ensures related !in utsPlugins && r.Some? ==>
      exists i :: 0 <= i < |standalone| && standalone[i].plugin == related
        && r.value == ProjectDep(UniModulesSpecifier(related), related, Ohpm, Some(standalone[i].version))
        && forall j :: 0 <= j < i ==> standalone[j].plugin != related
  {
    if related in utsPlugins then Some(ProjectDep(UniModulesSpecifier(related), related, Local, None))
    else
      match StandaloneFor(standalone, related)
      case Some(e) => Some(ProjectDep(UniModulesSpecifier(related), related, Ohpm, Some(e.version)))
      case None => None
  }

  function OptionToSeq<T>(o: Option<T>): seq<T> {
    match o
    case None => []
    case Some(x) => [x]
  }

  /** The dependencies pushed by `relatedModules.forEach`. */
  function ModuleDeps(modules: seq<string>, utsPlugins: seq<string>, standalone: seq<StandaloneExtApi>): (r: seq<ProjectDep>)
    ensures |r| <= |modules|
    ensures forall k :: 0 <= k < |r| ==>
      r[k].plugin in modules && r[k].moduleSpecifier == UniModulesSpecifier(r[k].plugin)
      && (r[k].source == Local <==> r[k].plugin in utsPlugins)
  {
    if modules == [] then []
    else
      var last := modules[|modules| - 1];
      ModuleDeps(modules[..|modules| - 1], utsPlugins, standalone) + OptionToSeq(ModuleDep(last, utsPlugins, standalone))
  }

  lemma ModuleDepsStep(modules: seq<string>, i: nat, utsPlugins: seq<string>, standalone: seq<StandaloneExtApi>)
    requires i < |modules|
    ensures ModuleDeps(modules[..i + 1], utsPlugins, standalone)
         == ModuleDeps(modules[..i], utsPlugins, standalone) + OptionToSeq(ModuleDep(modules[i], utsPlugins, standalone))
  {
    assert modules[..i + 1][..i] == modules[..i];
  }

  /** The side-effect import every related module gets. */
  function SideEffectImport(related: string): string {
    "import '" + UniModulesSpecifier(related) + "'"
  }

  lemma SideEffectImportsStep(modules: seq<string>, i: nat)
    requires i < |modules|
    ensures Map(SideEffectImport, modules[..i + 1]) == Map(SideEffectImport, modules[..i]) + [SideEffectImport(modules[i])]
  {
    MapAppend(SideEffectImport, modules[..i], [modules[i]]);
    assert modules[..i + 1] == modules[..i] + [modules[i]];
  }

  /** The body of `relatedModules.forEach` for one module: push its dependency, if it has one. */
  method PushModuleDep(deps: seq<ProjectDep>, related: string, utsPlugins: seq<string>, standalone: seq<StandaloneExtApi>)
    returns (deps': seq<ProjectDep>)
    ensures deps' == deps + OptionToSeq(ModuleDep(related, utsPlugins, standalone))
  {
    deps' := deps;
    var harmonyModuleName := "@uni_modules/" + ToLower(related);
    if related in utsPlugins {
      deps' := deps' + [ProjectDep(harmonyModuleName, related, Local, None)];
    } else {
      var matched := StandaloneFor(standalone, related);
      if matched.Some? {
        deps' := deps' + [ProjectDep(harmonyModuleName, related, Ohpm, Some(matched.value.version))];
      }
    }
  }

  /** `relatedModules.forEach`: one dependency at most and one import per module. */
  method CollectModuleDeps(relatedModules: seq<string>, utsPlugins: seq<string>, standalone: seq<StandaloneExtApi>)
    returns (deps: seq<ProjectDep>, importCodes: seq<string>)
    ensures deps == ModuleDeps(relatedModules, utsPlugins, standalone)
    ensures importCodes == Map(SideEffectImport, relatedModules)
  {
    deps, importCodes := [], [];
    var i := 0;
    while i < |relatedModules|
      invariant 0 <= i <= |relatedModules|
      invariant deps == ModuleDeps(relatedModules[..i], utsPlugins, standalone)
      invariant importCodes == Map(SideEffectImport, relatedModules[..i])
    {
      var related := relatedModules[i];
      var harmonyModuleName := "@uni_modules/" + ToLower(related);
      deps := PushModuleDep(deps, related, utsPlugins, standalone);
      importCodes := importCodes + ["import '" + harmonyModuleName + "'"];
      ModuleDepsStep(relatedModules, i, utsPlugins, standalone);
      SideEffectImportsStep(relatedModules, i);
      i := i + 1;
    }
    assert relatedModules[..i] == relatedModules;
  }

  // ----- Providers -------------------------------------------------------

  /** An entry of `getUniExtApiProviderRegisters()`. */
  datatype ProviderRegister = ProviderRegister(service: string, name: string, plugin: string)

  /** An entry of `allProviders`; `service` and `name` are undefined when the plugin name has too few `-` parts. */
  datatype ProviderEntry = ProviderEntry(
    service: Option<string>, name: Option<string>, moduleSpecifier: string,
    plugin: string, source: Source, version: Option<string>)

  function RegisteredEntry(p: ProviderRegister): ProviderEntry {
    ProviderEntry(Some(p.service), Some(p.name), UniModulesSpecifier(p.plugin), p.plugin, Local, None)
  }

  /** Array destructuring: position `i`, or undefined past the end. */
  function At(parts: seq<string>, i: nat): Option<string> {
    if i < |parts| then Some(parts[i]) else None
  }

  /** `const [_, service, provider] = extapi.plugin.split('-')`. */
  function StandaloneEntry(e: StandaloneExtApi): (r: ProviderEntry)
    ensures r.plugin == e.plugin && r.source == Ohpm && r.version == Some(e.version)
    ensures r.service == At(Split(e.plugin, '-'), 1) && r.name == At(Split(e.plugin, '-'), 2)
  {
    var parts := Split(e.plugin, '-');
    ProviderEntry(At(parts, 1), At(parts, 2), UniModulesSpecifier(e.plugin), e.plugin, Ohpm, Some(e.version))
  }

  predicate IsProviderApi(e: StandaloneExtApi) {
    e.kind == "provider"
  }

  predicate HasPlugin(entries: seq<ProviderEntry>, plugin: string) {
    exists i :: 0 <= i < |entries| && entries[i].plugin == plugin
  }

  /** The `forEach` over standalone providers: each is added unless its plugin is already present. */
  function AddStandaloneProviders(entries: seq<ProviderEntry>, exts: seq<StandaloneExtApi>): seq<ProviderEntry>
    decreases |exts|
  {
    if exts == [] then entries
    else
      var next := if HasPlugin(entries, exts[0].plugin) then entries else entries + [StandaloneEntry(exts[0])];
      AddStandaloneProviders(next, exts[1..])
  }

  /** `allProviders`: the registered providers, then the standalone ones not already registered. */
  function AllProviders(registers: seq<ProviderRegister>, standalone: seq<StandaloneExtApi>): seq<ProviderEntry> {
    AddStandaloneProviders(Map(RegisteredEntry, registers), Filter(IsProviderApi, standalone))
  }

  /** The list adding starts from stays as a prefix. */
  lemma {:induction false} AddStandalonePrefix(entries: seq<ProviderEntry>, exts: seq<StandaloneExtApi>)
    decreases |exts|
    ensures var r := AddStandaloneProviders(entries, exts);
      |entries| <= |r| && r[..|entries|] == entries
  {
    if exts != [] {
      var e := exts[0];
      var next := if HasPlugin(entries, e.plugin) then entries else entries + [StandaloneEntry(e)];
      AddStandalonePrefix(next, exts[1..]);
      var r := AddStandaloneProviders(next, exts[1..]);
      assert r[..|entries|] == r[..|next|][..|entries|];
    }
  }

  /** Every added entry is the entry of a standalone provider. */
  lemma {:induction false} AddStandaloneAdded(entries: seq<ProviderEntry>, exts: seq<StandaloneExtApi>)
    decreases |exts|
    ensures var r := AddStandaloneProviders(entries, exts);
      forall k :: |entries| <= k < |r| ==> exists e :: e in exts && r[k] == StandaloneEntry(e)
  {
    if exts != [] {
      var e := exts[0];
      var next := if HasPlugin(entries, e.plugin) then entries else entries + [StandaloneEntry(e)];
      AddStandaloneAdded(next, exts[1..]);
      AddStandalonePrefix(next, exts[1..]);
      var r := AddStandaloneProviders(next, exts[1..]);
      forall k | |entries| <= k < |r|
        ensures exists e' :: e' in exts && r[k] == StandaloneEntry(e')
      {
        if k < |next| {
          assert r[k] == r[..|next|][k] == next[k] == StandaloneEntry(e);
        } else {
          var e' :| e' in exts[1..] && r[k] == StandaloneEntry(e');
          assert e' in exts;
        }
      }
    }
  }

  /** An added entry's plugin differs from that of every entry before it. */
  lemma {:induction false} AddStandaloneDistinct(entries: seq<ProviderEntry>, exts: seq<StandaloneExtApi>)
    decreases |exts|
    ensures var r := AddStandaloneProviders(entries, exts);
      forall k, l :: |entries| <= k < |r| && 0 <= l < k ==> r[l].plugin != r[k].plugin
  {
    if exts != [] {
      var e := exts[0];
      var next := if HasPlugin(entries, e.plugin) then entries else entries + [StandaloneEntry(e)];
      AddStandaloneDistinct(next, exts[1..]);
      AddStandalonePrefix(next, exts[1..]);
      var r := AddStandaloneProviders(next, exts[1..]);
      forall k, l | |entries| <= k < |r| && 0 <= l < k
        ensures r[l].plugin != r[k].plugin
      {
        if k < |next| {
          assert r[k] == r[..|next|][k] == StandaloneEntry(e);
          assert r[l] == r[..|next|][l] == entries[l];
        }
      }
    }
  }

  /** Every standalone provider's plugin is present afterwards. */
  lemma {:induction false} AddStandaloneCovers(entries: seq<ProviderEntry>, exts: seq<StandaloneExtApi>)
    decreases |exts|
    ensures var r := AddStandaloneProviders(entries, exts);
      forall e :: e in exts ==> HasPlugin(r, e.plugin)
  {
    if exts != [] {
      var e := exts[0];
      var next := if HasPlugin(entries, e.plugin) then entries else entries + [StandaloneEntry(e)];
      AddStandaloneCovers(next, exts[1..]);
      AddStandalonePrefix(next, exts[1..]);
      var r := AddStandaloneProviders(next, exts[1..]);
      assert HasPlugin(next, e.plugin) by {
        if !HasPlugin(entries, e.plugin) {
          assert next[|entries|] == StandaloneEntry(e);
        }
      }
      var i :| 0 <= i < |next| && next[i].plugin == e.plugin;
      assert r[i] == r[..|next|][i];
    }
  }

  /**
   * What adding standalone providers does to a list: keeps it as a prefix,
   * appends only standalone entries whose plugin is new, and leaves every
   * standalone plugin present.
   */
  lemma AddStandaloneProvidersShape(entries: seq<ProviderEntry>, exts: seq<StandaloneExtApi>)
    ensures var r := AddStandaloneProviders(entries, exts);
      && |entries| <= |r| && r[..|entries|] == entries
      && (forall k :: |entries| <= k < |r| ==> exists e :: e in exts && r[k] == StandaloneEntry(e))
      && (forall k, l :: |entries| <= k < |r| && 0 <= l < k ==> r[l].plugin != r[k].plugin)
      && (forall e :: e in exts ==> HasPlugin(r, e.plugin))
  {
    AddStandalonePrefix(entries, exts);
    AddStandaloneAdded(entries, exts);
    AddStandaloneDistinct(entries, exts);
    AddStandaloneCovers(entries, exts);
  }

  /**
   * Registered providers come first and unchanged; every added entry is an
   * ohpm standalone provider whose plugin no earlier entry has; no
   * standalone provider is lost.
   */
  lemma AllProvidersShape(registers: seq<ProviderRegister>, standalone: seq<StandaloneExtApi>)
    ensures var r := AllProviders(registers, standalone);
      && |registers| <= |r|
      && (forall k :: 0 <= k < |registers| ==> r[k] == RegisteredEntry(registers[k]))
      && (forall k :: |registers| <= k < |r| ==>
            r[k].source == Ohpm && exists e :: e in standalone && IsProviderApi(e) && r[k] == StandaloneEntry(e))
      && (forall k, l :: |registers| <= k < |r| && 0 <= l < k ==> r[l].plugin != r[k].plugin)
      && (forall e :: e in standalone && IsProviderApi(e) ==> HasPlugin(r, e.plugin))
  {
    var regs := Map(RegisteredEntry, registers);
    var exts := Filter(IsProviderApi, standalone);
    var r := AllProviders(registers, standalone);
    assert r == AddStandaloneProviders(regs, exts);
    AddStandalonePrefix(regs, exts);
    AddStandaloneAdded(regs, exts);
    AddStandaloneDistinct(regs, exts);
    AddStandaloneCovers(regs, exts);
    forall k | 0 <= k < |registers| ensures r[k] == RegisteredEntry(registers[k]) {
      assert r[k] == r[..|regs|][k] == regs[k];
    }
    forall k | |registers| <= k < |r|
      ensures r[k].source == Ohpm && exists e :: e in standalone && IsProviderApi(e) && r[k] == StandaloneEntry(e)
    {
      var e :| e in exts && r[k] == StandaloneEntry(e);
      assert e in standalone && IsProviderApi(e);
    }
    forall e | e in standalone && IsProviderApi(e) ensures HasPlugin(r, e.plugin) {
      assert e in exts;
    }
  }

  /** The standalone-provider loop, growing `allProviders` in place. */
  method CollectAllProviders(registers: seq<ProviderRegister>, standalone: seq<StandaloneExtApi>)
    returns (allProviders: seq<ProviderEntry>)
    ensures allProviders == AllProviders(registers, standalone)
  {
    allProviders := Map(RegisteredEntry, registers);
    var exts := Filter(IsProviderApi, standalone);
    var i := 0;
    while i < |exts|
      invariant 0 <= i <= |exts|
      invariant AddStandaloneProviders(allProviders, exts[i..]) == AllProviders(registers, standalone)
    {
      var extapi := exts[i];
      var found := Find(allProviders, (item: ProviderEntry) => item.plugin == extapi.plugin);
      assert found.None? <==> !HasPlugin(allProviders, extapi.plugin);
      if found.None? {
        allProviders := allProviders + [StandaloneEntry(extapi)];
      }
      assert exts[i..][1..] == exts[i + 1..];
      i := i + 1;
    }
  }

  /** The provider of `allProviders` a related provider resolves to: the first with its service and name. */
  function MatchProvider(all: seq<ProviderEntry>, rp: RelatedProvider): (r: Option<ProviderEntry>)
    ensures r.Some? ==> r.value in all && r.value.service == Some(rp.service) && r.value.name == Some(rp.name)
    ensures r.Some? ==>
      exists i :: 0 <= i < |all| && all[i] == r.value
        && forall j :: 0 <= j < i ==> !(all[j].service == Some(rp.service) && all[j].name == Some(rp.name))
    ensures r.None? <==> forall k :: 0 <= k < |all| ==> !(all[k].service == Some(rp.service) && all[k].name == Some(rp.name))
  {
    Find(all, (item: ProviderEntry) => item.service == Some(rp.service) && item.name == Some(rp.name))
  }

  /**
   * Registered providers come first in `allProviders`, so a registered
   * provider with the related service and name beats every standalone one:
   * the match is the first such registered provider, and it is local.
   */
  lemma RegisteredProviderWins(registers: seq<ProviderRegister>, standalone: seq<StandaloneExtApi>, rp: RelatedProvider, k: nat)
    requires k < |registers| && registers[k].service == rp.service && registers[k].name == rp.name
    ensures var r := MatchProvider(AllProviders(registers, standalone), rp);
      && r.Some? && r.value.source == Local
      && exists i :: 0 <= i <= k && r.value == RegisteredEntry(registers[i])
           && forall j :: 0 <= j < i ==> !(registers[j].service == rp.service && registers[j].name == rp.name)
  {
    var all := AllProviders(registers, standalone);
    AllProvidersShape(registers, standalone);
    assert all[k] == RegisteredEntry(registers[k]);
    var r := MatchProvider(all, rp);
    var i :| 0 <= i < |all| && all[i] == r.value
      && forall j :: 0 <= j < i ==> !(all[j].service == Some(rp.service) && all[j].name == Some(rp.name));
    assert i <= k;
    assert all[i] == RegisteredEntry(registers[i]);
    forall j | 0 <= j < i ensures !(registers[j].service == rp.service && registers[j].name == rp.name) {
      assert all[j] == RegisteredEntry(registers[j]);
    }
  }

  /** Dependencies and lines from the related providers. */
  datatype ProviderCodes = ProviderCodes(deps: seq<ProjectDep>, imports: seq<string>, registers: seq<string>) {
    function Then(next: ProviderCodes): ProviderCodes {
      ProviderCodes(deps + next.deps, imports + next.imports, registers + next.registers)
    }
  }

  /**
   * One related provider: nothing when no provider matches, else a
   * dependency, a class import and a registration. The matched entry's
   * service and name equal the related provider's.
   */
  function RelatedProviderCodes(rp: RelatedProvider, all: seq<ProviderEntry>, formatName: (string, string) -> string): ProviderCodes {
    match MatchProvider(all, rp)
    case None => ProviderCodes([], [], [])
    case Some(p) =>
      var className := formatName(rp.service, rp.name);
      ProviderCodes([ProjectDep(p.moduleSpecifier, p.plugin, p.source, None)],
                    ["import { " + className + " } from '" + p.moduleSpecifier + "'"],
                    ["registerUniProvider('" + rp.service + "', '" + rp.name + "', new " + className + "())"])
  }

  /** `relatedProviders.forEach`. */
  function AllProviderCodes(rps: seq<RelatedProvider>, all: seq<ProviderEntry>, formatName: (string, string) -> string): ProviderCodes {
    if rps == [] then ProviderCodes([], [], [])
    else AllProviderCodes(rps[..|rps| - 1], all, formatName).Then(RelatedProviderCodes(rps[|rps| - 1], all, formatName))
  }

  /** Each matched related provider gives one dependency, one import and one registration; an unmatched one gives nothing. */
  lemma {:induction false} AllProviderCodesCounts(rps: seq<RelatedProvider>, all: seq<ProviderEntry>, formatName: (string, string) -> string)
    ensures var c := AllProviderCodes(rps, all, formatName);
      |c.deps| == |c.imports| == |c.registers| <= |rps|
  {
    if rps != [] {
      AllProviderCodesCounts(rps[..|rps| - 1], all, formatName);
    }
  }

  lemma AllProviderCodesImportsStep(rps: seq<RelatedProvider>, all: seq<ProviderEntry>, formatName: (string, string) -> string)
    requires rps != []
    ensures |AllProviderCodes(rps, all, formatName).imports|
      == |AllProviderCodes(rps[..|rps| - 1], all, formatName).imports| + |RelatedProviderCodes(rps[|rps| - 1], all, formatName).imports|
  {
  }

  lemma RelatedProviderCodesImports(rp: RelatedProvider, all: seq<ProviderEntry>, formatName: (string, string) -> string)
    ensures |RelatedProviderCodes(rp, all, formatName).imports| > 0 <==> MatchProvider(all, rp).Some?
  {
  }

  /** Some related provider matches exactly when one of the earlier ones or the last one does. */
  lemma MatchedSnoc(init: seq<RelatedProvider>, last: RelatedProvider, all: seq<ProviderEntry>)
    ensures (exists i :: 0 <= i < |init + [last]| && MatchProvider(all, (init + [last])[i]).Some?)
        <==> (exists i :: 0 <= i < |init| && MatchProvider(all, init[i]).Some?) || MatchProvider(all, last).Some?
  {
    var rps := init + [last];
    if exists i :: 0 <= i < |init| && MatchProvider(all, init[i]).Some? {
      var i :| 0 <= i < |init| && MatchProvider(all, init[i]).Some?;
      assert rps[i] == init[i];
    }
    if MatchProvider(all, last).Some? {
      assert rps[|init|] == last;
    }
    if exists i :: 0 <= i < |rps| && MatchProvider(all, rps[i]).Some? {
      var i :| 0 <= i < |rps| && MatchProvider(all, rps[i]).Some?;
      if i < |init| {
        assert init[i] == rps[i];
      }
    }
  }

  /** The provider lists are non-empty exactly when some related provider matches. */
  lemma {:induction false} AllProviderCodesNonEmpty(rps: seq<RelatedProvider>, all: seq<ProviderEntry>, formatName: (string, string) -> string)
    ensures |AllProviderCodes(rps, all, formatName).imports| > 0 <==> exists i :: 0 <= i < |rps| && MatchProvider(all, rps[i]).Some?
  {
    if rps != [] {
      var n := |rps| - 1;
      var init := rps[..n];
      AllProviderCodesNonEmpty(init, all, formatName);
      AllProviderCodesImportsStep(rps, all, formatName);
      RelatedProviderCodesImports(rps[n], all, formatName);
      assert rps == init + [rps[n]];
      MatchedSnoc(init, rps[n], all);
    }
  }

  /** Every provider dependency is the matched entry's specifier, plugin and source. */
  lemma {:induction false} AllProviderCodesDeps(rps: seq<RelatedProvider>, all: seq<ProviderEntry>, formatName: (string, string) -> string)
    ensures forall d :: d in AllProviderCodes(rps, all, formatName).deps ==>
      d.version == None && exists p :: p in all && d == ProjectDep(p.moduleSpecifier, p.plugin, p.source, None)
  {
    if rps != [] {
      AllProviderCodesDeps(rps[..|rps| - 1], all, formatName);
    }
  }

  const RuntimeImport := "import { registerUniProvider, uni } from '@dcloudio/uni-app-runtime'"

  /** `importProviderCodes.unshift(...)` when at least one provider import exists. */
  function WithRuntimeImport(imports: seq<string>): (r: seq<string>)
    ensures |r| > 0 <==> |imports| > 0
    ensures |r| > 0 ==> r[0] == RuntimeImport && r[1..] == imports
  {
    if |imports| > 0 then [RuntimeImport] + imports else imports
  }

  /** The `relatedProviders.forEach` loop and the `unshift` after it. */
  method CollectProviderCodes(relatedProviders: seq<RelatedProvider>, allProviders: seq<ProviderEntry>, formatName: (string, string) -> string)
    returns (deps: seq<ProjectDep>, importProviderCodes: seq<string>, registerProviderCodes: seq<string>)
    ensures var c := AllProviderCodes(relatedProviders, allProviders, formatName);
      deps == c.deps && importProviderCodes == WithRuntimeImport(c.imports) && registerProviderCodes == c.registers
  {
    deps, importProviderCodes, registerProviderCodes := [], [], [];
    var i := 0;
    while i < |relatedProviders|
      invariant 0 <= i <= |relatedProviders|
      invariant ProviderCodes(deps, importProviderCodes, registerProviderCodes) == AllProviderCodes(relatedProviders[..i], allProviders, formatName)
    {
      var relatedProvider := relatedProviders[i];
      var provider := MatchProvider(allProviders, relatedProvider);
      if provider.Some? {
        var p := provider.value;
        deps := deps + [ProjectDep(p.moduleSpecifier, p.plugin, p.source, None)];
        var className := formatName(relatedProvider.service, relatedProvider.name);
        importProviderCodes := importProviderCodes + ["import { " + className + " } from '" + p.moduleSpecifier + "'"];
        registerProviderCodes := registerProviderCodes
          + ["registerUniProvider('" + relatedProvider.service + "', '" + relatedProvider.name + "', new " + className + "())"];
      }
      assert relatedProviders[..i + 1][..i] == relatedProviders[..i];
      i := i + 1;
    }
    assert relatedProviders[..i] == relatedProviders;
    if |importProviderCodes| > 0 {
      importProviderCodes := [RuntimeImport] + importProviderCodes;
    }
  }

  // ----- Package files ---------------------------------------------------

  /** An entry of the `modules` list of `build-profile.json5`. */
  datatype HarmonyModule = HarmonyModule(name: string, srcPath: string)

  function DepPath(plugin: string): string {
    "./uni_modules/" + plugin
  }

  /** The value of a dependency in `oh-package.json5`. */
  function DependencyValue(dep: ProjectDep): string {
    if dep.source == Local then DepPath(dep.plugin) else "*"
  }

  /** Module name of a local dependency: `@` dropped, `/` to `__`, `-` to `_`, in that order. */
  function ModuleName(moduleSpecifier: string): (r: string)
    ensures '@' !in r && '/' !in r && '-' !in r
  {
    var dropped := ReplaceAll(moduleSpecifier, '@', "");
    var slashes := ReplaceAll(dropped, '/', "__");
    ReplaceAllShape(moduleSpecifier, '@', "");
    ReplaceAllShape(dropped, '/', "__");
    ReplaceAllShape(slashes, '-', "_");
    ReplaceAll(slashes, '-', "_")
  }

  function LocalModule(dep: ProjectDep): HarmonyModule {
    HarmonyModule(ModuleName(dep.moduleSpecifier), DepPath(dep.plugin))
  }

  /** The `dependencies` record after `projectDeps.forEach`: later assignments overwrite earlier ones. */
  function Dependencies(deps: seq<ProjectDep>): map<string, string> {
    if deps == [] then map[]
    else
      var last := deps[|deps| - 1];
      Dependencies(deps[..|deps| - 1])[last.moduleSpecifier := DependencyValue(last)]
  }

  /** The `modules` list after `projectDeps.forEach`. */
  function Modules(deps: seq<ProjectDep>): seq<HarmonyModule> {
    if deps == [] then []
    else
      var last := deps[|deps| - 1];
      Modules(deps[..|deps| - 1]) + (if last.source == Local then [LocalModule(last)] else [])
  }

  predicate IsLocal(dep: ProjectDep) {
    dep.source == Local
  }

  /** `projectDeps.forEach`: assigns into `dependencies` and pushes local modules. */
  method CollectDependencies(projectDeps: seq<ProjectDep>) returns (dependencies: map<string, string>, modules: seq<HarmonyModule>)
    ensures dependencies == Dependencies(projectDeps)
    ensures modules == Modules(projectDeps)
  {
    dependencies, modules := map[], [];
    var i := 0;
    while i < |projectDeps|
      invariant 0 <= i <= |projectDeps|
      invariant dependencies == Dependencies(projectDeps[..i])
      invariant modules == Modules(projectDeps[..i])
    {
      var dep := projectDeps[i];
      if dep.source == Local {
        var depPath := "./uni_modules/" + dep.plugin;
        dependencies := dependencies[dep.moduleSpecifier := depPath];
        modules := modules + [HarmonyModule(ModuleName(dep.moduleSpecifier), depPath)];
      } else {
        dependencies := dependencies[dep.moduleSpecifier := "*"];
      }
      assert projectDeps[..i + 1][..i] == projectDeps[..i];
      i := i + 1;
    }
    assert projectDeps[..i] == projectDeps;
  }

  /** Dependency `i` is the last one with specifier `k`. */
  predicate LastWith(deps: seq<ProjectDep>, i: int, k: string) {
    0 <= i < |deps| && deps[i].moduleSpecifier == k
    && forall j :: i < j < |deps| ==> deps[j].moduleSpecifier != k
  }

  /** Every dependency's specifier is a key of the record, and nothing else is. */
  lemma {:induction false} DependenciesKeys(deps: seq<ProjectDep>)
    ensures forall i :: 0 <= i < |deps| ==> deps[i].moduleSpecifier in Dependencies(deps)
    ensures forall k :: k in Dependencies(deps) ==> exists i :: 0 <= i < |deps| && deps[i].moduleSpecifier == k
  {
    if deps != [] {
      var n := |deps| - 1;
      var init := deps[..n];
      DependenciesKeys(init);
      forall i | 0 <= i < n ensures deps[i].moduleSpecifier in Dependencies(deps) {
        assert init[i] == deps[i];
      }
      forall k | k in Dependencies(deps) ensures exists i :: 0 <= i < |deps| && deps[i].moduleSpecifier == k {
        if k != deps[n].moduleSpecifier {
          var i :| 0 <= i < |init| && init[i].moduleSpecifier == k;
          assert deps[i] == init[i];
        }
      }
    }
  }

  /** The value of a key is given by the last dependency with that specifier: a local path or `*`. */
  lemma {:induction false} DependenciesLastWins(deps: seq<ProjectDep>)
    ensures forall k :: k in Dependencies(deps) ==>
      exists i :: LastWith(deps, i, k) && Dependencies(deps)[k] == DependencyValue(deps[i])
  {
    if deps != [] {
      var n := |deps| - 1;
      var init := deps[..n];
      DependenciesLastWins(init);
      var m := Dependencies(deps);
      forall k | k in m
        ensures exists i :: LastWith(deps, i, k) && m[k] == DependencyValue(deps[i])
      {
        if k == deps[n].moduleSpecifier {
          assert LastWith(deps, n, k);
        } else {
          var i :| LastWith(init, i, k) && Dependencies(init)[k] == DependencyValue(init[i]);
          assert deps[i] == init[i];
          forall j | i < j < |deps| ensures deps[j].moduleSpecifier != k {
            if j < n {
              assert deps[j] == init[j];
            }
          }
          assert LastWith(deps, i, k);
        }
      }
    }
  }

  /** The module list is exactly the local dependencies, in order, each with its mangled name. */
  lemma {:induction false} ModulesAreLocalDeps(deps: seq<ProjectDep>)
    ensures Modules(deps) == Map(LocalModule, Filter(IsLocal, deps))
  {
    if deps != [] {
      var n := |deps| - 1;
      var init, last := deps[..n], deps[n];
      ModulesAreLocalDeps(init);
      assert deps == init + [last];
      FilterAppend(IsLocal, init, [last]);
      var fi, fl := Filter(IsLocal, init), Filter(IsLocal, [last]);
      assert [last][1..] == [];
      assert fl == if IsLocal(last) then [last] else [];
      MapAppend(LocalModule, fi, fl);
      assert Map(LocalModule, fl) == if IsLocal(last) then [LocalModule(last)] else [];
      assert Modules(deps) == Modules(init) + (if IsLocal(last) then [LocalModule(last)] else []);
    }
  }

  /** No module name holds `@`, `/` or `-`, and each module points at its plugin's local path. */
  lemma ModulesWellFormed(deps: seq<ProjectDep>)
    ensures forall k :: 0 <= k < |Modules(deps)| ==>
      var m := Modules(deps)[k];
      '@' !in m.name && '/' !in m.name && '-' !in m.name
        && exists d :: d in deps && d.source == Local && m == HarmonyModule(ModuleName(d.moduleSpecifier), DepPath(d.plugin))
  {
    ModulesAreLocalDeps(deps);
    var locals := Filter(IsLocal, deps);
    forall k | 0 <= k < |Modules(deps)|
      ensures var m := Modules(deps)[k];
        '@' !in m.name && '/' !in m.name && '-' !in m.name
          && exists d :: d in deps && d.source == Local && m == HarmonyModule(ModuleName(d.moduleSpecifier), DepPath(d.plugin))
    {
      assert Modules(deps)[k] == LocalModule(locals[k]);
      assert locals[k] in deps && IsLocal(locals[k]);
    }
  }

  // ----- The whole pass --------------------------------------------------

  /** What `genAppHarmonyUniModules` computes before writing its three files. */
  datatype UniModules = UniModules(
    importCodes: seq<string>, registerCodes: seq<string>, extApiCodes: seq<string>,
    dependencies: map<string, string>, modules: seq<HarmonyModule>)

  /**
   * The lines of `index.generated.ets` and the project dependencies, as
   * `genAppHarmonyUniModules` has them after its last `forEach`.
   */
  method CollectCodesAndDeps(
    utsPlugins: seq<string>, injectsOf: string -> Option<seq<Inject>>, camelize: string -> string,
    sdkConfigs: Option<seq<ServiceConfig>>, manifestModules: Option<seq<string>>,
    registers: seq<ProviderRegister>, standalone: seq<StandaloneExtApi>,
    formatName: (string, string) -> string)
    returns (importCodes: seq<string>, registerCodes: seq<string>, extApiCodes: seq<string>, projectDeps: seq<ProjectDep>)
    ensures var plugins := AllPluginCodes(utsPlugins, injectsOf, camelize);
      var relatedModules := RelatedModules(manifestModules);
      var providers := AllProviderCodes(RelatedProviders(sdkConfigs), AllProviders(registers, standalone), formatName);
      && importCodes == plugins.imports + Map(SideEffectImport, relatedModules) + WithRuntimeImport(providers.imports)
      && registerCodes == plugins.registers
      && extApiCodes == plugins.extApis + (if |providers.imports| > 0 then providers.registers else [])
      && projectDeps == ModuleDeps(relatedModules, utsPlugins, standalone) + providers.deps
  {
    importCodes, extApiCodes, registerCodes := CollectPluginCodes(utsPlugins, injectsOf, camelize);
    var relatedProviders := GetRelatedProviders(sdkConfigs);
    var relatedModules := GetRelatedModules(manifestModules);
    var moduleImports;
    projectDeps, moduleImports := CollectModuleDeps(relatedModules, utsPlugins, standalone);
    importCodes := importCodes + moduleImports;
    var allProviders := CollectAllProviders(registers, standalone);
    var providerDeps, importProviderCodes, registerProviderCodes := CollectProviderCodes(relatedProviders, allProviders, formatName);
    projectDeps := projectDeps + providerDeps;
    if |importProviderCodes| > 0 {
      importCodes := importCodes + importProviderCodes;
      extApiCodes := extApiCodes + registerProviderCodes;
    }
  }

  /**
   * `genAppHarmonyUniModules` without its file writes: plugin lines, module
   * side-effect imports, provider imports (runtime import first) and
   * registrations, then the dependency record and module list built from
   * the module dependencies followed by the provider dependencies.
   */
  method GenAppHarmonyUniModules(
    utsPlugins: seq<string>, injectsOf: string -> Option<seq<Inject>>, camelize: string -> string,
    sdkConfigs: Option<seq<ServiceConfig>>, manifestModules: Option<seq<string>>,
    registers: seq<ProviderRegister>, standalone: seq<StandaloneExtApi>,
    formatName: (string, string) -> string)
    returns (out: UniModules)
    ensures var plugins := AllPluginCodes(utsPlugins, injectsOf, camelize);
      var relatedModules := RelatedModules(manifestModules);
      var providers := AllProviderCodes(RelatedProviders(sdkConfigs), AllProviders(registers, standalone), formatName);
      var projectDeps := ModuleDeps(relatedModules, utsPlugins, standalone) + providers.deps;
      && out.importCodes == plugins.imports + Map(SideEffectImport, relatedModules) + WithRuntimeImport(providers.imports)
      && out.registerCodes == plugins.registers
      && out.extApiCodes == plugins.extApis + (if |providers.imports| > 0 then providers.registers else [])
      && out.dependencies == Dependencies(projectDeps)
      && out.modules == Modules(projectDeps)
  {
    var importCodes, registerCodes, extApiCodes, projectDeps :=
      CollectCodesAndDeps(utsPlugins, injectsOf, camelize, sdkConfigs, manifestModules, registers, standalone, formatName);
    var dependencies, modules := CollectDependencies(projectDeps);
    out := UniModules(importCodes, registerCodes, extApiCodes, dependencies, modules);
  }
}
