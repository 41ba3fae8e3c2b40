# agent-armor policy engine, modelled in Dafny

agent-armor turns a selection of security threats into a `settings.json`
for a coding agent. The model covers:

- the catalog of threats, each with its mitigations (a settings fragment plus
  the deployment targets the fragment is valid for);
- the predefined profiles;
- the generator that merges the valid fragments of the enabled threats, applies
  the user's customizations, deduplicates the permission arrays and stamps
  `$schema`;
- the path-keyed deep merge it uses;
- the target file paths;
- the selection state of the web app.

Files and modules:

- `json.dfy` (`Json`): JSON values, with `Undefined` for an absent property. It
  also defines the first-occurrence deduplication that `[...new Set(xs)]`
  performs, and proves its laws.
- `merge.dfy` (`Merge`): `deepMergeInternal`, in two forms. `MergeObjects` is a
  pure function. `DeepMergeInternal` is a recursive method whose loop assigns
  one overlay key at a time, and it is proved equal to `MergeObjects`.
- `threats.dfy` (`Threats`): the eight threats, `getThreat`, and the integrity
  facts of the table.
- `engine.dfy` (`Engine`): `generate` as a method `Generate` with the source's
  nested loops and in-place passes. It is proved equal to the specification
  function `GenerateWith(Catalog, input)`. The file also has `getTargetPath`,
  with the platform as a parameter, and `getTargetInfo`.
- `engine_props.dfy` (`GenerateProperties`): what `generate` promises. Most of it
  is proved for any catalog that satisfies `CatalogOk`, and `CatalogIsOk`
  shows that the real catalog does.
- `profiles.dfy` (`Profiles`): the lax, moderate and strict profiles, and
  `getProfile`.
- `app.dfy` (`App`): the app state as a class. It covers `setProfile`,
  `toggleThreat`, `detectProfile` and the merge-or-fallback of
  `generateCurrentSettings`. `JSON.parse` is a parameter `parse: string -> Option<Value>`,
  where `None` stands for a throw.

Decisions:

- Paths are the dotted strings the code builds (`path ? path + "." + key : key`),
  not lists of keys. A key that itself contains a dot is classified exactly as
  the code classifies it.
- The customization passes test JavaScript truthiness (`Truthy`) as the code
  does.
- `enabledThreats` is a duplicate-free sequence in insertion order. A
  JavaScript `Set` iterates in insertion order, and that order reaches the
  order of the generated deny list.

## Model

| member | source | states |
|---|---|---|
| Json.Dedup | src/core/merge.ts:50-51 | `[...new Set(xs)]` has no duplicates, holds exactly the elements of `xs`, and is no longer than `xs` |
| Json.DedupOfNoDup | src/core/engine.ts:96-103 | deduplicating a duplicate-free list leaves it unchanged |
| Json.DedupIdempotent | src/core/engine.ts:96-103 | deduplicating twice is deduplicating once, so the safety net after the merge changes nothing |
| Json.DedupAppend | src/core/merge.ts:49-51 | deduplicating `a + b` is deduplicating the deduplicated `a` followed by `b` |
| Json.DedupPrefix | src/core/merge.ts:49-51 | the deduplicated base elements come first, unchanged; every later element is from the overlay and not in the base |
| Json.DedupIsFirstOccurrences | src/core/merge.ts:49-51 | the deduplication keeps the first occurrence of each element, scanning left to right |
| Json.DedupFromSeen | src/core/merge.ts:49-51 | after a prefix, the deduplication adds only the first occurrences of elements the prefix lacks |
| Json.IsPlainObject | src/core/merge.ts:26-28 | a value is a plain object exactly when it is none of `null`, `undefined`, a boolean, a number, a string or an array |
| Json.NoDupCard | src/web/app.ts:111-113 | a duplicate-free list has as many elements as its set, which is what `Set.size` counts |
| Merge.MergeObjects | src/core/merge.ts:30-70 | the result's keys are the base keys plus the overlay keys that are not `undefined`; a key only the base has keeps its base value |
| Merge.DeepMergeInternal | src/core/merge.ts:30-70 | the loop over overlay keys, assigning into a copy of the base, computes `MergeObjects` whatever order it visits the keys in |
| Merge.MergeValue | src/core/merge.ts:44-65 | the value one loop iteration assigns is `MergeEntry` of the base and overlay values at that path |
| Merge.MergeEmptyOverlay | src/core/merge.ts:35-37 | merging an empty overlay returns the base |
| Merge.MergeSkipsUndefined | src/core/merge.ts:42 | an `undefined` overlay value leaves the key present exactly when the base has it, with its base value |
| Merge.MergeReplacesWhitelist | src/core/merge.ts:18-24 | at a replace path the result is the overlay array, whatever the base held |
| Merge.MergeUnionsArrays | src/core/merge.ts:45-56 | at a union or unclassified path the result is base then overlay, deduplicated: duplicate-free, holding every input element, the deduplicated base first; a non-array base counts as empty |
| Merge.MergeRecursesIntoObjects | src/core/merge.ts:57-62 | a plain-object overlay value is merged recursively at the extended path, against `{}` when the base value is not an object |
| Merge.MergeOverwritesScalars | src/core/merge.ts:63-65 | `null`, booleans, numbers and strings in the overlay replace the base value |
| Merge.MergeLookup | src/core/merge.ts:39-66 | reading a key of the merge gives the merged entry where the overlay defines the key, and the base value (or `undefined`) elsewhere |
| Merge.MergeSettings | src/core/merge.ts:81-90 | the result's keys are those the existing value spreads to plus the generated keys that are not `undefined`; an existing key the generated value does not define keeps its value |
| Merge.MergeSettingsOfObjects | src/core/merge.ts:81-90 | `mergeSettings` of two objects is the deep merge at the root path |
| Merge.MergeIdempotent | src/core/merge.ts:30-70 | merging a document with itself returns it when its union-path arrays are duplicate-free |
| Threats.FindThreat | src/core/threats.ts:288-290 | `find` returns nothing exactly when no threat has the id, and otherwise the first threat with that id |
| Threats.GetThreat | src/core/threats.ts:288-290 | `getThreat(id)` is a catalog entry with that id, or nothing exactly when no entry has it |
| Threats.FindThreatOfEntry | src/core/threats.ts:288-290 | with unique ids, looking up an entry's id finds that entry |
| Threats.CatalogIdsUnique | src/core/threats.ts:33-286 | threat ids are unique |
| Threats.GetThreatOfEntry | src/core/threats.ts:288-290 | `getThreat(t.id)` returns `t` for every catalog entry |
| Threats.CatalogWellFormed | src/core/threats.ts:30-286 | every threat has an id, a name and mitigations; each mitigation has a label, a non-empty fragment and targets that are `ALL_TARGETS` or `MANAGED_ONLY` |
| Threats.CatalogCounts | src/core/threats.ts:33-286 | 8 threats, 14 mitigations: 10 valid for all targets, 4 managed-only |
| Engine.TargetNames | src/core/engine.ts:49 | the name of each target, one per target, in order |
| Engine.ServerEntries | src/core/engine.ts:82-89 | one `{serverName}` record per name, in order |
| Engine.ApplyThreat | src/core/engine.ts:44-59 | the inner loop merges each valid mitigation and records its label, or records the skip, as the specification functions say |
| Engine.RulePass | src/core/engine.ts:40-60 | the outer loop over the enabled ids yields the specified settings, applied labels and skip entries; unknown ids are passed over |
| Engine.ApplyAllowedDomains | src/core/engine.ts:63-69 | the in-place domain customization computes `WithAllowedDomains` |
| Engine.DedupPermissionArrays | src/core/engine.ts:96-103 | the in-place safety net computes `DedupPermissions` |
| Engine.ApplyCustomizations | src/core/engine.ts:62-107 | the passes after the rule pass compute domains, excluded commands, MCP lists, dedup and schema, in that order |
| Engine.GenerateWith | src/core/engine.ts:35-110 | `$schema` is the schemastore URL unless `includeSchema` is `false`; with no enabled threats nothing is applied or skipped |
| Engine.TargetPath | src/core/engine.ts:115-137 | the path is non-empty; it is absolute exactly for `managed` and home-relative exactly for `user` |
| Engine.GetTargetInfo | src/core/engine.ts:142-153 | the label is the target's name with its first letter in upper case, and the description is non-empty |
| Engine.Generate | src/core/engine.ts:35-110 | `generate` returns exactly `GenerateWith(Catalog, input)`, about which the lemmas below are proved |
| GenerateProperties.CatalogIsOk | src/core/threats.ts:30-286 | every mitigation of the catalog is well formed, has an object `permissions` with a list `deny` and an object `sandbox` with an object `network` and a list `excludedCommands` where set, and sets only the keys its targets allow |
| GenerateProperties.MitigationsInOk | src/core/engine.ts:41-44 | every mitigation the generator walks comes from the catalog |
| GenerateProperties.ValidityOfOk | src/core/threats.ts:30-31 | a mitigation is valid for `managed`, and valid for user, project and local alike |
| GenerateProperties.ThreatPartition | src/core/engine.ts:44-59 | for one threat, the applied and skipped counts add up to the number of its mitigations |
| GenerateProperties.RulePartition | src/core/engine.ts:40-60 | applied plus skipped is the number of mitigations of the known enabled threats |
| GenerateProperties.SkipReasonManagedOnly | src/core/engine.ts:49 | a managed-only mitigation's skip reason is `Only valid for: managed` |
| GenerateProperties.ThreatSkipsManagedOnly | src/core/engine.ts:45-51 | every skip entry of a threat carries that threat's id and the reason `Only valid for: managed` |
| GenerateProperties.SkipEntriesNameMitigations | src/core/engine.ts:45-51 | every skip entry of a threat is the warning for one of its mitigations not valid for the target: the threat's id, that mitigation's label and its valid targets |
| GenerateProperties.ThreatManagedAppliesAll | src/core/engine.ts:44-59 | for the managed target nothing of a threat is skipped and every label is applied, in order |
| GenerateProperties.SkippedAreManagedOnly | src/core/engine.ts:40-60 | skip entries name an enabled id and the managed-only reason; the managed target skips nothing and applies every label |
| GenerateProperties.ManagedAppliesMost | src/core/engine.ts:40-60 | no target applies more mitigations than `managed`, which applies them all |
| GenerateProperties.ThreatPassAgrees | src/core/engine.ts:44-59 | two targets with the same validity for every mitigation get the same settings, labels and skips |
| GenerateProperties.RulePassAgrees | src/core/engine.ts:40-60 | user, project and local get the same rule-pass settings, labels and skips |
| GenerateProperties.ScopeInvariance | src/core/engine.ts:35-110 | user, project and local yield identical `generate` results |
| GenerateProperties.UnknownIdSettings | src/core/engine.ts:41-42 | an unknown id anywhere in the list leaves the settings as without it |
| GenerateProperties.UnknownIdApplied | src/core/engine.ts:41-42 | an unknown id anywhere in the list leaves the applied labels as without it |
| GenerateProperties.UnknownIdSkipped | src/core/engine.ts:41-42 | an unknown id anywhere in the list leaves the skip entries as without it |
| GenerateProperties.UnknownIdIgnored | src/core/engine.ts:41-42 | an unknown id adds nothing to settings, applied or skipped |
| GenerateProperties.UnknownIdIgnoredByGenerate | src/core/engine.ts:35-110 | removing an unknown id from the input does not change the `generate` result |
| GenerateProperties.MergeDeny | src/core/engine.ts:54-57 | merging a fragment appends its deny entries to the deny list and deduplicates; a fragment without deny leaves the list alone |
| GenerateProperties.ThreatDeny | src/core/engine.ts:44-59 | after a threat, the deny list is the deduplicated concatenation of the earlier entries and its valid fragments' entries |
| GenerateProperties.RuleDeny | src/core/engine.ts:40-60 | after the rule pass, deny is the applied deny entries in threat then mitigation order, deduplicated |
| GenerateProperties.DedupKeysAt | src/core/engine.ts:97-102 | the safety net deduplicates each listed array and leaves every other permission value alone |
| GenerateProperties.DedupPermissionsEffect | src/core/engine.ts:96-103 | the safety net keeps the keys, changes only `permissions`, deduplicates deny, and leaves allow, ask and deny duplicate-free |
| GenerateProperties.MergeKeys | src/core/merge.ts:35-44 | merging two settings whose keys lie within a set keeps the keys within it |
| GenerateProperties.FragmentKeys | src/core/threats.ts:30-286 | a fragment valid for a target sets only the keys that target may receive |
| GenerateProperties.RuleKeysWithin | src/core/engine.ts:40-60 | the rule pass for a target produces only that target's keys |
| GenerateProperties.DomainsFrame | src/core/engine.ts:63-69 | the domain customization changes nothing but an existing `sandbox` |
| GenerateProperties.ExcludedFrame | src/core/engine.ts:71-78 | the excluded-commands customization changes nothing but an existing `sandbox` |
| GenerateProperties.McpFrame | src/core/engine.ts:80-91 | the MCP customization only adds the two MCP keys, and only for `managed` |
| GenerateProperties.PassesFrame | src/core/engine.ts:62-91 | the customizations keep the keys, the presence and shape of `sandbox`, and `permissions` |
| GenerateProperties.FinalKeys | src/core/engine.ts:35-110 | the generated settings hold only the target's keys plus `$schema` |
| GenerateProperties.NoManagedOnlyKeys | src/core/engine.ts:35-110 | for user, project and local, no managed-only key appears and `permissions` holds only `deny` |
| GenerateProperties.SchemaStamp | src/core/engine.ts:105-107 | `$schema` is the schemastore URL unless `includeSchema` is `false`, and absent then |
| GenerateProperties.FinalDeny | src/core/engine.ts:35-110 | the output deny list is the applied deny entries in order, deduplicated by first occurrence; it is duplicate-free with exactly those elements |
| GenerateProperties.PermissionArraysDupFree | src/core/engine.ts:96-103 | allow, ask and deny in the output are duplicate-free, even with repeated threat ids |
| GenerateProperties.MergeDenyList | src/core/merge.ts:45-56 | inside a merged `permissions`, `deny` stays a list when both sides hold a list or nothing |
| GenerateProperties.MergeFragmentShaped | src/core/merge.ts:35-70 | merging keeps `permissions` an object and `permissions.deny` a list |
| GenerateProperties.MergeSandboxShaped | src/core/merge.ts:35-70 | merging keeps `sandbox` and `sandbox.network` objects and `sandbox.excludedCommands` a list, where set |
| GenerateProperties.ThreatShaped | src/core/engine.ts:44-59 | merging a threat's valid fragments keeps the settings shaped |
| GenerateProperties.RuleShaped | src/core/engine.ts:40-60 | the rule pass over a catalog meeting `CatalogOk` produces shaped settings |
| GenerateProperties.DomainsKeepShape | src/core/engine.ts:63-69 | the domain customization writes only an object `network` and keeps the sandbox shaped |
| GenerateProperties.PassInputsShaped | src/core/engine.ts:62-103 | the customizations and the safety net only meet an object or absent `sandbox` and `network`, a list or absent `excludedCommands`, and a `permissions` object whose only rule list is `deny` |
| GenerateProperties.MergeEntryKind | src/core/merge.ts:44-66 | a merged entry is an object, or a list, exactly when the overlay value is |
| GenerateProperties.MergeExcludedList | src/core/merge.ts:45-56 | inside a merged `sandbox`, `excludedCommands` stays duplicate-free |
| GenerateProperties.MergeExcludedDupFree | src/core/merge.ts:35-70 | merging keeps `sandbox.excludedCommands` duplicate-free, whatever the fragment |
| GenerateProperties.ThreatExcludedDupFree | src/core/engine.ts:44-59 | merging a threat's valid fragments keeps `sandbox.excludedCommands` duplicate-free |
| GenerateProperties.RuleExcludedDupFree | src/core/engine.ts:40-60 | after the rule pass, `sandbox.excludedCommands` is duplicate-free |
| GenerateProperties.FinalExcludedDupFree | src/core/engine.ts:71-78 | the generated `sandbox.excludedCommands` holds no duplicates, whatever the catalog and input |
| GenerateProperties.McpKeysApart | src/core/threats.ts:30-286 | the MCP keys lie outside the key set every rule-pass output is confined to (`RuleKeysWithin`) |
| GenerateProperties.DomainsGate | src/core/engine.ts:63-69 | domains replace `sandbox.network.allowedDomains`, create `network` under a bare `sandbox`, and are dropped without `sandbox` |
| GenerateProperties.ExcludedGate | src/core/engine.ts:71-78 | excluded commands are union-deduplicated into the existing list when `sandbox` exists, and nothing changes without them |
| GenerateProperties.McpGate | src/core/engine.ts:80-91 | MCP lists appear exactly for `managed` with non-empty names, as `{serverName}` records in order |
| GenerateProperties.McpGateFinal | src/core/engine.ts:80-91 | in the generated settings the MCP lists appear exactly for `managed` with non-empty names |
| GenerateProperties.NothingSelected | src/core/engine.ts:105-107 | no enabled threats (and no MCP lists for `managed`) yield exactly `{ $schema }`, or `{}`, with nothing applied or skipped |
| GenerateProperties.ManagedDenySuperset | src/core/threats.ts:30-31 | the managed deny list contains every deny rule of any other target and is at least as long |
| GenerateProperties.TargetPathsDistinct | src/core/engine.ts:115-137 | each target has its own settings path; the platform changes only the managed path |
| GenerateProperties.TargetInfoDistinct | src/core/engine.ts:142-153 | each target has a distinct non-empty label and a non-empty description |
| Profiles.FindProfile | src/core/profiles.ts:52 | `find` returns nothing exactly when no profile has the id, and otherwise the first profile with that id |
| Profiles.GetProfile | src/core/profiles.ts:50-53 | `getProfile` returns nothing exactly for `custom`, and otherwise the predefined profile with that id |
| Profiles.GetProfileOfEntry | src/core/profiles.ts:50-53 | `getProfile(p.id)` returns `p` for every predefined profile |
| Profiles.ProfileSizes | src/core/profiles.ts:12-48 | lax, moderate and strict list 2, 5 and 8 distinct threats |
| Profiles.StrictIsCatalog | src/core/profiles.ts:37-46 | strict lists the catalog's threat ids in catalog order |
| Profiles.StrictContainsOthers | src/core/profiles.ts:12-48 | the strict set contains the moderate and lax sets |
| Profiles.ProfileThreatsKnown | src/core/profiles.ts:12-48 | every threat id a profile names is in the catalog |
| Profiles.ProfileSetsDistinct | src/core/profiles.ts:12-48 | no two profiles have the same threat set |
| Profiles.StrictCoversCatalog | src/core/profiles.ts:37-46 | strict covers every threat of the catalog |
| App.SameSelectionIsSetEquality | src/web/app.ts:111-115 | the size-and-containment test is set equality |
| App.DetectedProfileMeaning | src/web/app.ts:108-120 | the detected profile is the one whose set equals the enabled set, and `custom` exactly when there is none |
| App.ProfileDetectsItself | src/web/app.ts:108-120 | a predefined profile's threats are detected as that profile |
| App.Remove | src/web/app.ts:67 | `Set.delete` removes only `id`, keeps a set a set, and changes nothing when `id` is absent |
| App.RemoveKeepsOrder | src/web/app.ts:67 | on a duplicate-free list, `Set.delete` removes exactly the position holding the id and keeps the others in order |
| App.ToggleFlips | src/web/app.ts:65-70 | toggling flips the membership of `id` and of no other threat |
| App.ToggleTwice | src/web/app.ts:65-70 | toggling twice restores the set, and the list itself when `id` was off |
| App.OrAbsent | src/web/app.ts:126-135 | an empty list is passed as absent, a non-empty one as itself |
| App.TrimEmptyIffBlank | src/web/app.ts:140 | `trim()` is empty exactly when the text is all white space |
| App.AppState.constructor | src/web/app.ts:31-41 | the initial state: user target, moderate profile and its threats, nothing customized, merge off |
| App.AppState.SetProfile | src/web/app.ts:54-63 | the profile becomes `p`; a predefined profile replaces the enabled set by its threats, `custom` keeps it; nothing else changes and the state stays consistent |
| App.AppState.ToggleThreat | src/web/app.ts:65-74 | the enabled set is toggled at `id`, the profile becomes the detected one, and nothing else changes |
| App.AppState.DetectProfile | src/web/app.ts:108-120 | returns the first profile whose set equals the enabled set, else `custom` |
| App.AppState.CurrentInput | src/web/app.ts:123-136 | the generator input carries the enabled threats and target; each customization list is passed as itself when non-empty and as absent when empty; `includeSchema` is left unset |
| App.AppState.GenerateCurrentSettings | src/web/app.ts:122-150 | the result is `generate` of the state; final settings are the merge into the parsed existing text when merge is on, the text is not blank and it parses, and the generated settings otherwise |
| App.MergedKeepsBoth | src/web/app.ts:143 | merging into an existing configuration keeps all its keys and adds every generated key |

## Left out

- Rendering and events: `update`, the component renderers, the icons, the export panel and analytics are UI, I/O or foreign calls.
- The getter `getState` of `src/web/app.ts` returns the state unchanged; the state is the `App.AppState` object itself.
- The other setters of `src/web/app.ts` (`setTarget`, `setAllowedDomains`, `setSandboxExcludedCommands`, `setAllowedMcpServers`, `setDeniedMcpServers`, `setMergeEnabled`, `setExistingConfig`) each assign one field. All of them re-render, except `setExistingConfig`, which re-renders only when merge is on.
- Platform sniffing in `getTargetPath`: `process.platform` and `navigator.userAgent` become the `isMac` parameter of `Engine.TargetPath`.
- `JSON.parse`: it is the `parse` parameter of `App.AppState.GenerateCurrentSettings`, and a throw is `None`.
- Key order of JavaScript objects: objects are maps, so the model does not say in which order keys are serialized.
- Merge.DeepMergeInternal: the order in which `Object.keys` visits the overlay is left open. The proof covers every order.
- `Set` reference equality: `Json.Dedup` compares values structurally, while `new Set` compares objects and arrays by reference, so JavaScript keeps equal-looking objects or arrays as distinct elements.
- The arrays `generate` puts at union paths hold only strings, so for them the two agree.
- An existing configuration is different. It is merged as the base in `generateCurrentSettings`, and its `permissions.deny`, `.allow`, `.ask` or `sandbox.excludedCommands` may hold objects or arrays.
- For such a configuration, the model collapses equal objects or arrays that JavaScript would keep. This affects `Merge.MergeObjects`, `Merge.MergeUnionsArrays`, `Merge.MergeSettings` and `App.AppState.GenerateCurrentSettings`: an existing deny of `[{"a":1},{"a":1}]` merged with `["Bash(curl *)"]` has two elements in the model and three in JavaScript.
- `Spread` of a string counts its characters, not its UTF-16 code units. Characters outside the Basic Multilingual Plane are indexed differently.
- JavaScript numbers are unbounded integers here. Only integers appear in the settings.
- Engine.WithAllowedDomains, Engine.WithExcludedCommands and Engine.DedupKey: they leave the settings unchanged on inputs where JavaScript throws or behaves differently. The model never throws. The cases are a truthy `sandbox` or `sandbox.network` that is not an object, and a truthy `excludedCommands` or permission rule list that is not an array.
- In those cases JavaScript's strict-mode property write on a primitive throws a `TypeError`. A write onto an array adds a property. Spreading a string yields its characters. Spreading or `new Set` over a non-iterable throws.
- The model reads such an `excludedCommands` as an empty list. It leaves such a `sandbox`, `network` or rule list as it was.
- `generate` never reaches these inputs from a catalog meeting `CatalogOk` (`GenerateProperties.PassInputsShaped`), and the shipped catalog meets it (`GenerateProperties.CatalogIsOk`).
- GenerateProperties.DomainsGate: its last clause, that a truthy non-object `network` is kept, states the model's choice for an input on which JavaScript throws. It is not behaviour of the program.
- GenerateProperties.TargetInfoDistinct: it does not state which path each description names.
- Profiles.GetProfile: profile ids are the closed type `ProfileId`, so no unknown id can be passed.
- App.ToggleTwice: turning an enabled threat off and on again restores the set, not the list. The threat moves to the end of the insertion order.
- App.IsJsWhitespace: the white space set is the one `String.prototype.trim` uses, with the Unicode space separators listed explicitly.
- The generator properties in `GenerateProperties` hold for any catalog satisfying `CatalogOk`, and `CatalogIsOk` shows that the shipped catalog does. They are not restated with the constant catalog plugged in.
- `src/core/schema.ts` is not part of this model: settings are untyped JSON objects.
