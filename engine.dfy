/**
 * The settings generator of src/core/engine.ts: the enabled threats'
 * mitigations that are valid for the chosen target are merged into one
 * settings object, then the user's customizations are applied, the
 * permission arrays are deduplicated and the schema URL is stamped.
 *
 * The specification functions take the threat catalog as a parameter, so
 * that the properties in GenerateProperties hold for every catalog with
 * the catalog's integrity properties; `Generate` uses the real catalog.
 */
module Engine {
  import opened Json
  import opened Merge
  import opened Threats

  datatype GenerationInput = GenerationInput(
    enabledThreats: seq<string>,
    target: Target,
    allowedDomains: Option<seq<string>>,
    sandboxExcludedCommands: Option<seq<string>>,
    allowedMcpServerNames: Option<seq<string>>,
    deniedMcpServerNames: Option<seq<string>>,
    includeSchema: Option<bool>)

  datatype SkippedMitigation = SkippedMitigation(threatId: string, labelText: string, reason: string)

  datatype GenerationResult = GenerationResult(
    settings: map<string, Value>,
    appliedMitigations: seq<string>,
    skippedMitigations: seq<SkippedMitigation>)

  const SchemaUrl := "https://json.schemastore.org/claude-code-settings.json"

  // ---- The rule pass ----

  /** `mitigation.validTargets.includes(target)` */
  predicate IsValidFor(m: Mitigation, t: Target) {
    t in m.validTargets
  }

  /** `parts.join(sep)` */
  function Join(parts: seq<string>, sep: string): string {
    if parts == [] then ""
    else if |parts| == 1 then parts[0]
    else parts[0] + sep + Join(parts[1..], sep)
  }

  /** `validTargets` as the strings the warning lists, in order. */
  function TargetNames(ts: seq<Target>): (r: seq<string>)
    ensures |r| == |ts|
    ensures forall i :: 0 <= i < |ts| ==> r[i] == TargetName(ts[i])
  {
    if ts == [] then [] else [TargetName(ts[0])] + TargetNames(ts[1..])
  }

  /** The warning recorded for a mitigation that is not valid for the target. */
  function SkipReason(m: Mitigation): string {
    "Only valid for: " + Join(TargetNames(m.validTargets), ", ")
  }

  /** The mitigations walked for a threat id: none for an unknown id. */
  function MitigationsIn(catalog: seq<Threat>, id: string): seq<Mitigation> {
    match FindThreat(catalog, id)
    case Some(t) => t.mitigations
    case None => []
  }

  /** The settings after merging, in order, the first `n` mitigations of `ms` valid for `t` onto `s`. */
  function MergeMitigations(s: map<string, Value>, ms: seq<Mitigation>, n: nat, t: Target): map<string, Value>
    requires n <= |ms|
  {
    if n == 0 then s
    else
      var prev := MergeMitigations(s, ms, n - 1, t);
      var m := ms[n - 1];
      if IsValidFor(m, t) then MergeSettings(Obj(prev), Obj(m.settingsFragment)) else prev
  }

  /** The labels of the first `n` mitigations of `ms` valid for `t`, in order. */
  function AppliedLabels(ms: seq<Mitigation>, n: nat, t: Target): (r: seq<string>)
    requires n <= |ms|
  {
    if n == 0 then []
    else
      var m := ms[n - 1];
      AppliedLabels(ms, n - 1, t) + (if IsValidFor(m, t) then [m.labelText] else [])
  }

  /** The warnings for the first `n` mitigations of `ms` not valid for `t`, in order. */
  function SkippedEntries(id: string, ms: seq<Mitigation>, n: nat, t: Target): seq<SkippedMitigation>
    requires n <= |ms|
  {
    if n == 0 then []
    else
      var m := ms[n - 1];
      SkippedEntries(id, ms, n - 1, t)
        + (if IsValidFor(m, t) then [] else [SkippedMitigation(id, m.labelText, SkipReason(m))])
  }

  /** The settings after the rule pass over the threat ids `ids`. */
  function RuleSettings(catalog: seq<Threat>, ids: seq<string>, t: Target): map<string, Value>
    decreases |ids|
  {
    if ids == [] then map[]
    else
      var ms := MitigationsIn(catalog, ids[|ids| - 1]);
      MergeMitigations(RuleSettings(catalog, ids[..|ids| - 1], t), ms, |ms|, t)
  }

  /** `appliedMitigations` after the rule pass over `ids`. */
  function Applied(catalog: seq<Threat>, ids: seq<string>, t: Target): seq<string>
    decreases |ids|
  {
    if ids == [] then []
    else
      var ms := MitigationsIn(catalog, ids[|ids| - 1]);
      Applied(catalog, ids[..|ids| - 1], t) + AppliedLabels(ms, |ms|, t)
  }

  /** `skippedMitigations` after the rule pass over `ids`. */
  function Skipped(catalog: seq<Threat>, ids: seq<string>, t: Target): seq<SkippedMitigation>
    decreases |ids|
  {
    if ids == [] then []
    else
      var id := ids[|ids| - 1];
      var ms := MitigationsIn(catalog, id);
      Skipped(catalog, ids[..|ids| - 1], t) + SkippedEntries(id, ms, |ms|, t)
  }

  // ---- Customizations and the final passes ----

  /** `xs?.length` is truthy: the list is given and not empty. */
  predicate NonEmpty(xs: Option<seq<string>>) {
    xs.Some? && |xs.value| > 0
  }

  /** `settings.sandbox?.network` is truthy, then `settings.sandbox` is. */
  function WithAllowedDomains(s: map<string, Value>, domains: Option<seq<string>>): map<string, Value> {
    if !NonEmpty(domains) then s
    else
      var sandbox := Lookup(s, "sandbox");
      var network := if sandbox.Obj? then Lookup(sandbox.fields, "network") else Undefined;
      var list := Arr(Strs(domains.value));
      if Truthy(network) then
        (if network.Obj?
         then s["sandbox" := Obj(sandbox.fields["network" := Obj(network.fields["allowedDomains" := list])])]
         else s)
      else if Truthy(sandbox) then
        (if sandbox.Obj?
         then s["sandbox" := Obj(sandbox.fields["network" := Obj(map["allowedDomains" := list])])]
         else s)
      else s
  }

  /** The user's excluded commands are appended to the sandbox's, keeping first occurrences. */
  function WithExcludedCommands(s: map<string, Value>, commands: Option<seq<string>>): map<string, Value> {
    var sandbox := Lookup(s, "sandbox");
    if NonEmpty(commands) && Truthy(sandbox) && sandbox.Obj? then
      var existing := ArrayOrEmpty(Lookup(sandbox.fields, "excludedCommands"));
      s["sandbox" := Obj(sandbox.fields["excludedCommands" := Arr(Dedup(existing + Strs(commands.value)))])]
    else s
  }

  /** `names.map((name) => ({ serverName: name }))` */
  function ServerEntries(names: seq<string>): (r: seq<Value>)
    ensures |r| == |names|
    ensures forall i :: 0 <= i < |names| ==> r[i] == Obj(map["serverName" := Str(names[i])])
  {
    if names == [] then [] else [Obj(map["serverName" := Str(names[0])])] + ServerEntries(names[1..])
  }

  /** MCP server allow and deny lists, for the managed target only. */
  function WithMcpServers(s: map<string, Value>, input: GenerationInput): map<string, Value> {
    if input.target != Managed then s
    else
      var s1 := if NonEmpty(input.allowedMcpServerNames)
        then s["allowedMcpServers" := Arr(ServerEntries(input.allowedMcpServerNames.value))] else s;
      if NonEmpty(input.deniedMcpServerNames)
      then s1["deniedMcpServers" := Arr(ServerEntries(input.deniedMcpServerNames.value))]
      else s1
  }

  /** `permissions[key] = [...new Set(arr)]` when that array is present. */
  function DedupKey(p: map<string, Value>, key: string): map<string, Value> {
    var arr := Lookup(p, key);
    if Truthy(arr) && arr.Arr? then p[key := Arr(Dedup(arr.items))] else p
  }

  /** The permission arrays the safety net deduplicates, in order. */
  const PermissionKeys: seq<string> := ["allow", "ask", "deny"]

  /** `DedupKey` applied to the first `n` of `keys`, in order. */
  function DedupKeys(p: map<string, Value>, keys: seq<string>, n: nat): map<string, Value>
    requires n <= |keys|
  {
    if n == 0 then p else DedupKey(DedupKeys(p, keys, n - 1), keys[n - 1])
  }

  /** The final safety net over `permissions.allow`, `.ask` and `.deny`. */
  function DedupPermissions(s: map<string, Value>): map<string, Value> {
    var perms := Lookup(s, "permissions");
    if Truthy(perms) && perms.Obj?
    then s["permissions" := Obj(DedupKeys(perms.fields, PermissionKeys, |PermissionKeys|))]
    else s
  }

  /** `$schema` is set unless `includeSchema` is explicitly `false`. */
  function WithSchema(s: map<string, Value>, includeSchema: Option<bool>): map<string, Value> {
    if includeSchema != Some(false) then s["$schema" := Str(SchemaUrl)] else s
  }

  /** The settings after the rule pass over the whole input and every later pass. */
  function FinalSettings(catalog: seq<Threat>, input: GenerationInput): map<string, Value> {
    var s0 := RuleSettings(catalog, input.enabledThreats, input.target);
    var s1 := WithAllowedDomains(s0, input.allowedDomains);
    var s2 := WithExcludedCommands(s1, input.sandboxExcludedCommands);
    var s3 := WithMcpServers(s2, input);
    WithSchema(DedupPermissions(s3), input.includeSchema)
  }

  /** generate(input), against a given catalog. */
  function GenerateWith(catalog: seq<Threat>, input: GenerationInput): (r: GenerationResult)
    ensures input.includeSchema != Some(false) ==> "$schema" in r.settings && r.settings["$schema"] == Str(SchemaUrl)
    ensures input.enabledThreats == [] ==> r.appliedMitigations == [] && r.skippedMitigations == []
  {
    GenerationResult(
      FinalSettings(catalog, input),
      Applied(catalog, input.enabledThreats, input.target),
      Skipped(catalog, input.enabledThreats, input.target))
  }

  /**
   * The inner loop of the rule pass: each mitigation of one threat is
   * merged into the settings and its label recorded, or recorded as
   * skipped with the targets it is valid for.
   */
  method ApplyThreat(
    settings0: map<string, Value>, applied0: seq<string>, skipped0: seq<SkippedMitigation>,
    threatId: string, ms: seq<Mitigation>, t: Target)
    returns (settings: map<string, Value>, applied: seq<string>, skipped: seq<SkippedMitigation>)
    ensures settings == MergeMitigations(settings0, ms, |ms|, t)
    ensures applied == applied0 + AppliedLabels(ms, |ms|, t)
    ensures skipped == skipped0 + SkippedEntries(threatId, ms, |ms|, t)
  {
    settings, applied, skipped := settings0, applied0, skipped0;
    var j := 0;
    while j < |ms|
      invariant 0 <= j <= |ms|
      invariant settings == MergeMitigations(settings0, ms, j, t)
      invariant applied == applied0 + AppliedLabels(ms, j, t)
      invariant skipped == skipped0 + SkippedEntries(threatId, ms, j, t)
    {
      var m := ms[j];
      if !(t in m.validTargets) {
        skipped := skipped + [SkippedMitigation(threatId, m.labelText, SkipReason(m))];
      } else {
        settings := MergeSettings(Obj(settings), Obj(m.settingsFragment));
        applied := applied + [m.labelText];
      }
      j := j + 1;
    }
  }

  /**
   * The rule pass of generate: walk the enabled threat ids in order, look
   * each up in the catalog (`getThreat`), and apply its mitigations; an
   * unknown id is passed over.
   */
  method RulePass(catalog: seq<Threat>, ids: seq<string>, t: Target)
    returns (settings: map<string, Value>, applied: seq<string>, skipped: seq<SkippedMitigation>)
    ensures settings == RuleSettings(catalog, ids, t)
    ensures applied == Applied(catalog, ids, t)
    ensures skipped == Skipped(catalog, ids, t)
  {
    settings, applied, skipped := map[], [], [];
    var i := 0;
    while i < |ids|
      invariant 0 <= i <= |ids|
      invariant settings == RuleSettings(catalog, ids[..i], t)
      invariant applied == Applied(catalog, ids[..i], t)
      invariant skipped == Skipped(catalog, ids[..i], t)
    {
      var threatId := ids[i];
      assert ids[..i + 1][..i] == ids[..i];
      var threat := FindThreat(catalog, threatId);
      if threat.Some? {
        settings, applied, skipped :=
          ApplyThreat(settings, applied, skipped, threatId, threat.value.mitigations, t);
      }
      i := i + 1;
    }
    assert ids[..|ids|] == ids;
  }

  /** The allowed-domains customization, assigned into the sandbox in place. */
  method ApplyAllowedDomains(s: map<string, Value>, domains: Option<seq<string>>)
    returns (settings: map<string, Value>)
    ensures settings == WithAllowedDomains(s, domains)
  {
    settings := s;
    if NonEmpty(domains) {
      var sandbox := Lookup(settings, "sandbox");
      var network := if sandbox.Obj? then Lookup(sandbox.fields, "network") else Undefined;
      var list := Arr(Strs(domains.value));
      if Truthy(network) {
        if network.Obj? {
          settings := settings["sandbox" := Obj(sandbox.fields["network" := Obj(network.fields["allowedDomains" := list])])];
        }
      } else if Truthy(sandbox) {
        if sandbox.Obj? {
          settings := settings["sandbox" := Obj(sandbox.fields["network" := Obj(map["allowedDomains" := list])])];
        }
      }
    }

  }

  /**
   * The passes of generate after the rule pass, each updating the settings
   * in place: the customizations behind their gates, the deduplication of
   * the permission arrays, and the schema stamp.
   */
  method ApplyCustomizations(rules: map<string, Value>, input: GenerationInput)
    returns (settings: map<string, Value>)
    ensures settings == WithSchema(DedupPermissions(WithMcpServers(WithExcludedCommands(
      WithAllowedDomains(rules, input.allowedDomains), input.sandboxExcludedCommands), input)), input.includeSchema)
  {
    settings := rules;
    settings := ApplyAllowedDomains(settings, input.allowedDomains);

    var sandbox := Lookup(settings, "sandbox");
    if NonEmpty(input.sandboxExcludedCommands) && Truthy(sandbox) && sandbox.Obj? {
      var existing := ArrayOrEmpty(Lookup(sandbox.fields, "excludedCommands"));
      var merged := Dedup(existing + Strs(input.sandboxExcludedCommands.value));
      settings := settings["sandbox" := Obj(sandbox.fields["excludedCommands" := Arr(merged)])];
    }

    assert settings == WithExcludedCommands(WithAllowedDomains(rules, input.allowedDomains), input.sandboxExcludedCommands);

    if input.target == Managed {
      if NonEmpty(input.allowedMcpServerNames) {
        settings := settings["allowedMcpServers" := Arr(ServerEntries(input.allowedMcpServerNames.value))];
      }
      if NonEmpty(input.deniedMcpServerNames) {
        settings := settings["deniedMcpServers" := Arr(ServerEntries(input.deniedMcpServerNames.value))];
      }
    }

    assert settings == WithMcpServers(WithExcludedCommands(
      WithAllowedDomains(rules, input.allowedDomains), input.sandboxExcludedCommands), input);

    settings := DedupPermissionArrays(settings);
    if input.includeSchema != Some(false) {
      settings := settings["$schema" := Str(SchemaUrl)];
    }
  }

  /** The safety net of generate: each permission array present is deduplicated in place. */
  method DedupPermissionArrays(s: map<string, Value>) returns (settings: map<string, Value>)
    ensures settings == DedupPermissions(s)
  {
    settings := s;
    var perms := Lookup(settings, "permissions");
    if Truthy(perms) && perms.Obj? {
      var p := perms.fields;
      for k := 0 to |PermissionKeys|
        invariant p == DedupKeys(perms.fields, PermissionKeys, k)
      {
        var key := PermissionKeys[k];
        var arr := Lookup(p, key);
        if Truthy(arr) && arr.Arr? {
          p := p[key := Arr(Dedup(arr.items))];
        }
      }
      settings := settings["permissions" := Obj(p)];
    }
  }

  /** generate(input), over the threat catalog. */
  method Generate(input: GenerationInput) returns (result: GenerationResult)
    ensures result == GenerateWith(Catalog, input)
  {
    var rules, applied, skipped := RulePass(Catalog, input.enabledThreats, input.target);
    var settings := ApplyCustomizations(rules, input);
    result := GenerationResult(settings, applied, skipped);
  }

  // ---- Target resolution ----

  /**
   * getTargetPath(target): where the settings file is saved. The platform
   * sniffing for the managed path is the parameter `isMac`.
   */
  function TargetPath(t: Target, isMac: bool): (r: string)
    ensures |r| > 0
    ensures r[0] == '/' <==> t == Managed
    ensures r[0] == '~' <==> t == User
  {
    match t
    case User => var p := "~/.claude/settings.json"; assert p[0] == '~'; p
    case Project => var p := ".claude/settings.json"; assert p[0] == '.'; p
    case Local => var p := ".claude/settings.local.json"; assert p[0] == '.'; p
    case Managed =>
      if isMac then var p := "/" + "Library/Application Support/ClaudeCode/managed-settings.json"; assert p[0] == '/'; p
      else var p := "/etc/claude-code/managed-settings.json"; assert p[0] == '/'; p
  }

  datatype TargetInfo = TargetInfo(labelText: string, description: string)

  /** An ASCII lower-case letter in upper case; any other character as it is. */
  function UpperAscii(c: char): char {
    if 'a' <= c <= 'z' then (c as int - 32) as char else c
  }

  /** getTargetInfo(target): a label and a one-line description. */
  function GetTargetInfo(t: Target): (r: TargetInfo)
    ensures |r.labelText| == |TargetName(t)| > 0
    ensures r.labelText[0] == UpperAscii(TargetName(t)[0]) && r.labelText[1..] == TargetName(t)[1..]
    ensures r.description != ""
  {
    match t
    case User => TargetInfo("User", "Personal settings (~/.claude/settings.json)")
    case Project => TargetInfo("Project", "Shared with team via git (.claude/settings.json)")
    case Local => TargetInfo("Local", "Personal project overrides (.claude/settings.local.json)")
    case Managed => TargetInfo("Managed", "Enterprise system-level (requires admin)")
  }
}
