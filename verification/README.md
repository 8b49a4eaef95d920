# uni-app compiler helpers, modelled in Dafny

This project models two parts of the uni-app build tool chain and proves
what they promise.

**Template-directive AST builders** (`packages/uni-mp-compiler/src/ast.ts`).
The mini-program compiler lowers `v-if` to `{ [id]: cond }` and
`...(cond ? { ...props } : {})`, and `v-for` to
`helper(source, (value, key, index) => { return { ...props } })`. Missing
bindings before a present one are filled by the placeholders `_` and `__`.
The same file classifies literal nodes (`isTrueExpr`, `isUndefined`,
`parseStringLiteral`), wraps Babel's expression parser so that a syntax
error becomes one compiler error (`parseExpr`, `parseParam`), and builds
directive and attribute nodes. The Babel and Vue node shapes are the
datatypes of `babel_types.dfy` and `vue_nodes.dfy`. The parser, `genExpr`,
`context.helperString` and the scope's id generator are parameters.
`parseExpr` reports through `context.onError`; here the reported errors are
returned as a list next to the result.

**HarmonyOS module and import logic**
(`packages/uni-app-harmony/src/compiler/plugin.ts`). The model covers:

- which module ids are platform globals;
- the identifier an import of such an id is bound to;
- the import lines put in front of each chunk;
- the Rollup `output.globals` resolver;
- the providers and modules selected in `manifest.json`;
- the in-memory part of `genAppHarmonyUniModules`.

That last part builds the import, ext-API and registration lines of
`index.generated.ets`. It decides whether each related module or provider
comes from the local `uni_modules` or from ohpm. It also builds the
`dependencies` record and `modules` list of the generated package files.
The manifest, the compiled plugin set, the result of `parseUniExtApi`, the
registered providers and `standalone-ext-apis.json` are inputs.
`camelize` and `formatExtApiProviderName` are function parameters.

Files: `wrappers.dfy` (Option), `seqs.dfy` and `strings.dfy` (generic
sequence and string functions with their lemmas), `babel_types.dfy`,
`vue_nodes.dfy`, `ast.dfy`, `harmony_globals.dfy`, `harmony_manifest.dfy`,
`harmony_uni_modules.dfy`.

Where the source changes things step by step (the nested `for...in` loops of
`getRelatedProviders`, the pushes of `genAppHarmonyUniModules`, the pushes
building the `v-for` parameters), the model is a method. Each such method
is proved equal to a specification function, and the lemmas state the
properties of that function.

`isTrueExpr` follows the code rather than the usual reading of JavaScript
truthiness. Babel keeps the digits of a big-integer or decimal literal as a
string `value`, so `!!expr.value` is true for `0n` and `0m`. The model and
the lemma `Ast.ZeroLiterals` state exactly that.

## Model

| member | source | states |
|---|---|---|
| Ast.CreateVIfProperty | packages/uni-mp-compiler/src/ast.ts:67-69 | the property is keyed by the identifier of the generator's next id and holds the condition |
| Ast.CreateVIfConditionalExpression | packages/uni-mp-compiler/src/ast.ts:71-80 | the test is the scope's condition, the consequent an object of exactly the scope's properties, the alternate always the empty object |
| Ast.CreateVIfSpreadElement | packages/uni-mp-compiler/src/ast.ts:82-84 | spread into an object, the element adds the scope's properties when the condition holds and nothing when it does not |
| Ast.VForArity | packages/uni-mp-compiler/src/ast.ts:150-163 | a `v-for` callback never has more than three parameters |
| Ast.VForParamsUnique | packages/uni-mp-compiler/src/ast.ts:150-163 | the positional rule (value, key, index; `_` and `__` as fillers) determines the parameter list completely |
| Ast.CreateVForArrowFunctionExpression | packages/uni-mp-compiler/src/ast.ts:144-168 | parameters follow the positional rule: the value is first, the key second, the index last, and the arities are value only 1, key only `[_, key]`, index only `[_, __, index]`, value and index `[value, __, index]`, none `[]`; the body is one `return` of an object with the scope's properties in order |
| Ast.CreateVForCallExpression | packages/uni-mp-compiler/src/ast.ts:94-106 | the callee is the name `helperString` gives the `v-for` helper; there are exactly two arguments, the source expression and a callback obeying the positional rule |
| Ast.ParseExpr | packages/uni-mp-compiler/src/ast.ts:110-131 | on success the parser's node and no error; on a syntax error no result and exactly one invalid-expression error carrying the parser's message, located at the code's own node when the code is a node, else at the given node, else nowhere |
| Ast.ParseParam | packages/uni-mp-compiler/src/ast.ts:133-142 | `(code)=>{}` is parsed; the first parameter of the arrow (undefined when it has none) is returned; a failed parse or a non-arrow result throws, and a failed parse also reports one error at the node |
| Ast.IsUndefined | packages/uni-mp-compiler/src/ast.ts:170-172 | true exactly for the identifier named `undefined` |
| Ast.IsTrueExpr | packages/uni-mp-compiler/src/ast.ts:174-188 | `null` is false; a string, number or boolean literal is true iff its value is non-empty, non-zero or true; a big-integer or decimal literal is true iff its digit string is non-empty; every other node is true |
| Ast.ZeroLiterals | packages/uni-mp-compiler/src/ast.ts:178-186 | the number literal `0` is false while `0n` and `0m` are true |
| Ast.ParseStringLiteral | packages/uni-mp-compiler/src/ast.ts:190-200 | the result is a string literal holding an identifier's name, a string literal's own value, or `""` for any other node |
| Ast.ParseStringLiteralIdempotent | packages/uni-mp-compiler/src/ast.ts:190-200 | parsing the result again gives the same literal |
| Ast.CreateDirectiveNode | packages/uni-mp-compiler/src/ast.ts:202-215 | the node has the given name, no modifiers, the stub location, a static argument and a non-static expression with the given texts |
| Ast.CreateOnDirectiveNode | packages/uni-mp-compiler/src/ast.ts:217-219 | an `on` directive with the event as static argument and the handler as expression |
| Ast.CreateBindDirectiveNode | packages/uni-mp-compiler/src/ast.ts:221-223 | a `bind` directive with the attribute as static argument and the value as expression |
| Ast.OnBindDifferOnlyInName | packages/uni-mp-compiler/src/ast.ts:217-223 | the `on` and `bind` nodes built from the same pair are equal once the name is set alike |
| Ast.CreateAttributeNode | packages/uni-mp-compiler/src/ast.ts:225-239 | the attribute keeps its name and wraps the content, unchanged, in a text value |
| HarmonyGlobals.IsHarmonyGlobal | packages/uni-app-harmony/src/compiler/plugin.ts:33-39 | `isHarmoneyGlobal`: some pattern of the list, exact id or prefix, matches the id; every match starts with `@` |
| HarmonyGlobals.IsHarmonyGlobalIff | packages/uni-app-harmony/src/compiler/plugin.ts:23-39 | an id is a harmony global iff it is `@ohos/hypium` or `@ohos/hamock` or starts with `@ohos.`, `@kit.`, `@hms.`, `@arkts.` or `@system.` |
| HarmonyGlobals.ImportSpecifier | packages/uni-app-harmony/src/compiler/plugin.ts:41-52 | `generateHarmonyImportSpecifier`: each `.` becomes `_`, each `/` becomes `__`, each `@` is dropped, so the specifier is at most twice as long as the id |
| HarmonyGlobals.ImportSpecifierClean | packages/uni-app-harmony/src/compiler/plugin.ts:41-52 | the specifier holds no `@`, `.` or `/` |
| HarmonyGlobals.ImportSpecifierLength | packages/uni-app-harmony/src/compiler/plugin.ts:41-52 | the specifier's length is the id's length plus the number of `/` minus the number of `@` |
| HarmonyGlobals.ImportSpecifierAppend | packages/uni-app-harmony/src/compiler/plugin.ts:41-52 | the rewrite works character by character: the specifier of a concatenation is the concatenation of the specifiers |
| HarmonyGlobals.ImportSpecifierKeeps | packages/uni-app-harmony/src/compiler/plugin.ts:41-52 | an id without `@`, `.` and `/` is left unchanged |
| HarmonyGlobals.ImportSpecifierIdempotent | packages/uni-app-harmony/src/compiler/plugin.ts:41-52 | rewriting a specifier again changes nothing |
| HarmonyGlobals.ImportSpecifierByPasses | packages/uni-app-harmony/src/compiler/plugin.ts:42-51 | the single pass equals dropping `@`, then `.` to `_`, then `/` to `__` |
| HarmonyGlobals.ImportExternalCode | packages/uni-app-harmony/src/compiler/plugin.ts:54-64 | `generateHarmonyImportExternalCode`: the import lines of the harmony globals among the names, joined with `''`; the code is empty exactly when no name is a harmony global |
| HarmonyGlobals.ImportExternalCodeSingle | packages/uni-app-harmony/src/compiler/plugin.ts:54-64 | one name gives `import <specifier> from '<id>';` when it is a harmony global and nothing otherwise |
| HarmonyGlobals.ImportExternalCodeAppend | packages/uni-app-harmony/src/compiler/plugin.ts:54-64 | the code of a list is the code of its parts in order, so input order is kept |
| HarmonyGlobals.Globals | packages/uni-app-harmony/src/compiler/plugin.ts:76-83 | the fixed table (`vue`, `@vue/shared`) wins; else a harmony global gets its import specifier; else `''` |
| HarmonyGlobals.GlobalsEmptyIff | packages/uni-app-harmony/src/compiler/plugin.ts:76-83 | the resolver answers `''` exactly for ids that are neither in the table nor harmony globals |
| HarmonyManifest.Renamed | packages/uni-app-harmony/src/compiler/plugin.ts:153-160 | each name of a supported service gives one provider, in key order, renamed through the service's table when it has an entry |
| HarmonyManifest.PushServiceProviders | packages/uni-app-harmony/src/compiler/plugin.ts:153-161 | the inner loop appends exactly the renamed providers of one service, in key order |
| HarmonyManifest.GetRelatedProviders | packages/uni-app-harmony/src/compiler/plugin.ts:139-165 | the nested loops return the providers of the supported services in manifest order, and nothing when `sdkConfigs` is absent |
| HarmonyManifest.RelatedProvidersMember | packages/uni-app-harmony/src/compiler/plugin.ts:129-165 | a provider is related iff some `oauth` or `payment` entry names it, after the rename table |
| HarmonyManifest.RelatedProvidersServices | packages/uni-app-harmony/src/compiler/plugin.ts:129-165 | only `oauth` and `payment` providers are returned, and `payment`/`weixin` always comes out as `wxpay` |
| HarmonyManifest.GetRelatedModules | packages/uni-app-harmony/src/compiler/plugin.ts:172-189 | the loop returns the supported modules in manifest order, and nothing when `modules` is absent |
| HarmonyManifest.RelatedModulesOnlyFacial | packages/uni-app-harmony/src/compiler/plugin.ts:167-189 | the result is `uni-facialRecognitionVerify` once per `FacialRecognitionVerify` key; every other key is dropped |
| Strings.ToLower | packages/uni-app-harmony/src/compiler/plugin.ts:204 | lower-casing keeps the length, turns each upper-case ASCII letter into its lower-case counterpart (code point plus 32), leaves no upper-case ASCII letter and changes no other character |
| Strings.Split | packages/uni-app-harmony/src/compiler/plugin.ts:279 | splitting on `-` gives at least one part, and no part holds a `-` |
| Strings.JoinSplit | packages/uni-app-harmony/src/compiler/plugin.ts:279 | joining the parts with the separator gives back the plugin name |
| HarmonyUniModules.CollectInjectCodes | packages/uni-app-harmony/src/compiler/plugin.ts:205-215 | an inject array of at least two items gives an import of its second item from the plugin package and `uni.<api> = <api>`; other injects give nothing |
| HarmonyUniModules.InjectsCodesPaired | packages/uni-app-harmony/src/compiler/plugin.ts:206-215 | a plugin's injects give as many imports as ext-API assignments and no registration |
| HarmonyUniModules.CollectPluginCodes | packages/uni-app-harmony/src/compiler/plugin.ts:196-223 | each compiled plugin in order gives its inject lines, or a namespace import and a `registerUTSPlugin` call when it has no injects |
| HarmonyUniModules.AllPluginCodesPaired | packages/uni-app-harmony/src/compiler/plugin.ts:196-223 | the number of plugin imports is the number of ext-API assignments plus the number of registrations |
| HarmonyUniModules.ModuleDep | packages/uni-app-harmony/src/compiler/plugin.ts:235-255 | a module among the compiled plugins is a local dependency; otherwise it is an ohpm dependency with the version of the first standalone entry of that plugin, if there is one; otherwise it has none |
| HarmonyUniModules.PushModuleDep | packages/uni-app-harmony/src/compiler/plugin.ts:236-255 | one related module appends its dependency when it has one and nothing otherwise |
| HarmonyUniModules.ModuleDeps | packages/uni-app-harmony/src/compiler/plugin.ts:235-257 | at most one dependency per related module, each on `@uni_modules/<plugin in lower case>`, local exactly when the plugin is compiled |
| HarmonyUniModules.CollectModuleDeps | packages/uni-app-harmony/src/compiler/plugin.ts:235-257 | the loop gives those dependencies and one side-effect import per related module, in order |
| HarmonyUniModules.StandaloneEntry | packages/uni-app-harmony/src/compiler/plugin.ts:279-287 | a standalone provider's service and name are the second and third `-` parts of its plugin name (undefined when missing), with its version and the ohpm source |
| HarmonyUniModules.AddStandaloneProvidersShape | packages/uni-app-harmony/src/compiler/plugin.ts:273-288 | the existing entries stay as a prefix; every added entry is a standalone entry whose plugin no earlier entry has; every standalone plugin ends up present |
| HarmonyUniModules.AllProvidersShape | packages/uni-app-harmony/src/compiler/plugin.ts:262-288 | the registered providers come first as local entries; the rest are ohpm standalone providers added only when no earlier entry has their plugin; none is lost |
| HarmonyUniModules.CollectAllProviders | packages/uni-app-harmony/src/compiler/plugin.ts:262-288 | the loop that grows `allProviders` builds exactly that list |
| HarmonyUniModules.MatchProvider | packages/uni-app-harmony/src/compiler/plugin.ts:291-298 | the match, when there is one, is the first entry with the related service and name; there is none iff no entry has both |
| HarmonyUniModules.RegisteredProviderWins | packages/uni-app-harmony/src/compiler/plugin.ts:262-298 | registered providers come first, so when one has the related service and name, the match is the first such registered provider and is local, whatever the standalone providers are |
| HarmonyUniModules.AllProviderCodesCounts | packages/uni-app-harmony/src/compiler/plugin.ts:290-311 | a matched related provider gives one dependency, one import and one registration, an unmatched one nothing, so the three lists are equally long and no longer than the related providers |
| HarmonyUniModules.AllProviderCodesNonEmpty | packages/uni-app-harmony/src/compiler/plugin.ts:290-318 | there are provider imports iff some related provider matches |
| HarmonyUniModules.AllProviderCodesDeps | packages/uni-app-harmony/src/compiler/plugin.ts:299-303 | every provider dependency is the specifier, plugin and source of an entry of `allProviders`, without version |
| HarmonyUniModules.WithRuntimeImport | packages/uni-app-harmony/src/compiler/plugin.ts:312-315 | the runtime import is put first exactly when there is at least one provider import |
| HarmonyUniModules.CollectProviderCodes | packages/uni-app-harmony/src/compiler/plugin.ts:290-315 | the loop and the `unshift` give the provider dependencies, the imports with the runtime import in front, and the registrations |
| HarmonyUniModules.ModuleName | packages/uni-app-harmony/src/compiler/plugin.ts:347-350 | a module name holds no `@`, `/` or `-` |
| HarmonyUniModules.CollectDependencies | packages/uni-app-harmony/src/compiler/plugin.ts:341-356 | the loop builds the `dependencies` record (later entries overwrite earlier ones) and the list of local modules |
| HarmonyUniModules.DependenciesKeys | packages/uni-app-harmony/src/compiler/plugin.ts:341-356 | the record's keys are exactly the dependencies' specifiers |
| HarmonyUniModules.DependenciesLastWins | packages/uni-app-harmony/src/compiler/plugin.ts:341-356 | a key's value comes from the last dependency with that specifier: `./uni_modules/<plugin>` when local, `*` when ohpm |
| HarmonyUniModules.ModulesAreLocalDeps | packages/uni-app-harmony/src/compiler/plugin.ts:341-356 | the module list is the local dependencies, in order, each with its mangled name and local path; ohpm dependencies give none |
| HarmonyUniModules.ModulesWellFormed | packages/uni-app-harmony/src/compiler/plugin.ts:343-352 | no module name holds `@`, `/` or `-`, and each module points at the local path of a local dependency |
| HarmonyUniModules.CollectCodesAndDeps | packages/uni-app-harmony/src/compiler/plugin.ts:193-318 | after all loops, the import, registration and ext-API lines and the project dependencies are those given by the specification functions, in source order |
| HarmonyUniModules.GenAppHarmonyUniModules | packages/uni-app-harmony/src/compiler/plugin.ts:191-368 | imports are the plugin lines, then one side-effect import per related module, then the provider imports with the runtime import first; provider registrations join the ext-API lines only when there is a provider import; the record and module list come from the module dependencies followed by the provider dependencies |

## Left out

- The file writes of `genAppHarmonyUniModules` are not modelled: the text of `index.generated.ets` and the JSON of `oh-package.json5` and `build-profile.json5`. The model stops at the line lists, the record and the module list these are made from.
- `parseManifestJsonOnce`, `parseUniExtApi`, `getCurrentCompiledUTSPlugins`, `getUniExtApiProviderRegisters`, `resolveUTSCompiler` and `standalone-ext-apis.json` are not modelled. Their results are inputs.
- `camelize` and `formatExtApiProviderName` are uninterpreted function parameters.
- The Vite hook wiring is not modelled: `config`, `writeBundle` with `buildUniExtApis`, and the `generateBundle` loop that puts the external-import code in front of every chunk with code.
- `for...in` order is the order of the input sequences. JavaScript's rule that integer-like keys come first is not modelled.
- Lookups in `SupportedProviderService` and `SupportedModules` are by own key only. Names inherited from `Object.prototype`, such as `constructor`, are not modelled.
- HarmonyGlobals.Globals: the lookup in `commondGlobals` is by own key only. Keys inherited from `Object.prototype`, such as `constructor` or `toString`, give a function in the source and `''` or the specifier here. Rollup asks only for ids listed in `external`, which are never such keys.
- HarmonyGlobals.GlobalsEmptyIff: the `''` case holds for own keys of `commondGlobals`; ids inherited from `Object.prototype` are outside the model, as for `Globals`.
- The key order of the `dependencies` record is not modelled; the record is a map.
- `toLowerCase` is modelled for ASCII letters only.
- The regular expressions of `plugin.ts` are stated as prefix tests and character rewrites. General regular-expression matching is not modelled.
- Babel's `parseExpression`, `genExpr`, `context.helperString` and `id.next()` are parameters. Nothing is claimed about the uniqueness of generated ids.
- Ast.ParseExpr: when the parser throws something other than an `Error`, its `message` is not modelled; every failure carries a message.
- Ast.ParseParam: node kinds outside the modelled ones are `OtherNode`, which has no `params`. A parse result such as a function expression, which does have `params`, would not throw in the source.
- Numeric literals are reals. NaN, infinities and `-0` are not representable.
- Only some fields of the compiler-core nodes are modelled. `constType`, the `type` tags and the text of compiler error messages are left out; an error keeps its code, location and additional message.
- The validation Babel's builders apply to their arguments is not modelled. The non-null assertions on `sourceExpr` and `condition` become preconditions.
- `createIdentifier`, `createObjectProperty`, `createSpreadElement` and `createObjectExpression` each call one Babel builder. They are the datatype constructors of `babel_types.dfy` and have no member of their own.
