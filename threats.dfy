/**
 * The threat catalog of src/core/threats.ts: eight threats, each with the
 * mitigations that counter it, every mitigation a settings fragment plus
 * the deployment targets it is valid for.
 */
module Threats {
  import opened Json

  /** The deployment scope a settings file is generated for. */
  datatype Target = User | Project | Local | Managed

  /** How a target is spelled in the settings tool (`'user'`, ...). */
  function TargetName(t: Target): string {
    match t
    case User => "user"
    case Project => "project"
    case Local => "local"
    case Managed => "managed"
  }

  datatype Severity = High | Medium | Low

  datatype Mitigation = Mitigation(
    labelText: string,
    settingsFragment: map<string, Value>,
    validTargets: seq<Target>)

  datatype Threat = Threat(
    id: string,
    name: string,
    description: string,
    severity: Severity,
    references: seq<string>,
    mitigations: seq<Mitigation>)

  const AllTargets: seq<Target> := [User, Project, Local, Managed]
  const ManagedOnly: seq<Target> := [Managed]

  const DataExfiltration := Threat(
    "data-exfiltration",
    "Data Exfiltration via Network Tools",
    "Prevents the agent from using curl, wget, DNS tools, or WebFetch to send data to external servers via prompt injection.",
    High,
    ["CVE-2025-55284", "Claude Code DNS Exfil"],
    [ Mitigation("Block network CLIs in Bash",
        map["permissions" := Obj(map["deny" := Arr([Str("Bash(curl *)"), Str("Bash(wget *)"), Str("Bash(nc *)"), Str("Bash(ncat *)"), Str("Bash(netcat *)"), Str("Bash(nslookup *)"), Str("Bash(dig *)"), Str("Bash(host *)")])])],
        AllTargets),
      Mitigation("Block WebFetch tool", map["permissions" := Obj(map["deny" := Arr([Str("WebFetch")])])], AllTargets),
      Mitigation("Sandbox network lockdown",
        map["sandbox" := Obj(map[
          "enabled" := Bool(true),
          "network" := Obj(map["allowedDomains" := Arr([]), "allowAllUnixSockets" := Bool(false)])])],
        AllTargets)
    ])

  const SecretsTheft := Threat(
    "secrets-theft",
    "Secrets & Credential Theft",
    "Blocks the agent from reading .env files, SSH keys, AWS credentials, API tokens, and other sensitive credential stores.",
    High,
    ["Claude Pirate", "Cline Data Exfil"],
    [ Mitigation("Block project credential files",
        map["permissions" := Obj(map["deny" := Arr([Str("Read(./.env)"), Str("Read(./.env.*)"), Str("Read(./secrets/**)"), Str("Read(./**/*.pem)"), Str("Read(./**/*.key)"), Str("Read(./**/credentials.json)")])])],
        AllTargets),
      Mitigation("Block home-directory credential stores",
        map["permissions" := Obj(map["deny" := Arr([Str("Read(~/.ssh/**)"), Str("Read(~/.aws/**)"), Str("Read(~/.azure/**)"), Str("Read(~/.gnupg/**)"), Str("Read(~/.kube/**)"), Str("Read(~/.docker/**)"), Str("Read(~/.npmrc)"), Str("Read(~/.pypirc)"), Str("Read(~/.netrc)")])])],
        AllTargets)
    ])

  const MaliciousMcp := Threat(
    "malicious-mcp",
    "Malicious / Untrusted MCP Servers",
    "Controls which MCP servers the agent can connect to, preventing rogue plugins from exfiltrating data or executing unauthorized commands.",
    Medium,
    ["MCP Confused Clients", "Slack MCP Exfil", "Anthropic FS MCP Bypass"],
    [ Mitigation("Disable all project MCP servers",
        map["enableAllProjectMcpServers" := Bool(false)], AllTargets),
      Mitigation("Lock down plugin marketplaces",
        map["strictKnownMarketplaces" := Arr([])], ManagedOnly)
    ])

  const PrivilegeEscalation := Threat(
    "privilege-escalation",
    "Privilege Escalation via sudo / su",
    "Prevents the agent from running elevated commands that could gain root access or modify file permissions.",
    High,
    [],
    [ Mitigation("Block sudo, su, chmod, chown",
        map["permissions" := Obj(map["deny" := Arr([Str("Bash(sudo *)"), Str("Bash(su *)"), Str("Bash(su)"), Str("Bash(chmod *)"), Str("Bash(chown *)")])])],
        AllTargets)
    ])

  const PermissionBypass := Threat(
    "permission-bypass",
    "Permission Bypass / Auto-Approve",
    "Prevents use of --dangerously-skip-permissions which would bypass all permission checks, turning the agent unrestricted.",
    High,
    ["ZombAI Agents", "AgentHopper AI Virus"],
    [ Mitigation("Disable bypass permissions mode",
        map["permissions" := Obj(map["disableBypassPermissionsMode" := Str("disable")])],
        ManagedOnly)
    ])

  const ConfigOverride := Threat(
    "config-override",
    "Config Override / Shadow Policy",
    "Prevents user or project-level settings from overriding managed security policies. Enterprise/managed deployments only.",
    High,
    ["Cross-Agent Privilege Escalation", "Scary Agent Skills", "Hidden Unicode Instructions"],
    [ Mitigation("Enforce managed permission rules only",
        map["allowManagedPermissionRulesOnly" := Bool(true)], ManagedOnly),
      Mitigation("Enforce managed hooks only",
        map["allowManagedHooksOnly" := Bool(true)], ManagedOnly)
    ])

  const DestructiveOps := Threat(
    "destructive-ops",
    "Destructive Operations",
    "Blocks commands that destroy data or corrupt git history, like rm -rf, force-push, and hard reset.",
    Medium,
    [],
    [ Mitigation("Block destructive file operations",
        map["permissions" := Obj(map["deny" := Arr([Str("Bash(rm -rf *)"), Str("Bash(rm -r *)"), Str("Bash(rm -fr *)")])])],
        AllTargets),
      Mitigation("Block destructive git operations",
        map["permissions" := Obj(map["deny" := Arr([Str("Bash(git push --force *)"), Str("Bash(git push -f *)"), Str("Bash(git reset --hard *)"), Str("Bash(git clean -f *)")])])],
        AllTargets)
    ])

  const SandboxEnforcement := Threat(
    "sandbox-enforcement",
    "Sandbox Enforcement",
    "Enables OS-level sandboxing for Bash commands with strict filesystem and network isolation boundaries.",
    Medium,
    [],
    [ Mitigation("Enable sandbox with strict defaults",
        map["sandbox" := Obj(map[
          "enabled" := Bool(true),
          "autoAllowBashIfSandboxed" := Bool(false),
          "allowUnsandboxedCommands" := Bool(false),
          "excludedCommands" := Arr([]),
          "network" := Obj(map[
            "allowedDomains" := Arr([]),
            "allowAllUnixSockets" := Bool(false),
            "allowLocalBinding" := Bool(false)]),
          "enableWeakerNestedSandbox" := Bool(false)])],
        AllTargets)
    ])

  /** THREATS, in declaration order. */
  const Catalog: seq<Threat> := [
    DataExfiltration, SecretsTheft, MaliciousMcp, PrivilegeEscalation,
    PermissionBypass, ConfigOverride, DestructiveOps, SandboxEnforcement
  ]

  /** `threats.find((t) => t.id === id)`: the first threat with that id. */
  function FindThreat(threats: seq<Threat>, id: string): (r: Option<Threat>)
    ensures r.None? <==> forall i :: 0 <= i < |threats| ==> threats[i].id != id
    ensures r.Some? ==> exists i :: (0 <= i < |threats| && threats[i] == r.value && r.value.id == id
                                     && forall j :: 0 <= j < i ==> threats[j].id != id)
  {
    if threats == [] then None
    else if threats[0].id == id then Some(threats[0])
    else
      var r := FindThreat(threats[1..], id);
      assert r.Some? ==> exists i :: (0 <= i < |threats[1..]| && threats[1..][i] == r.value
                                      && forall j :: 0 <= j < i ==> threats[1..][j].id != id);
      r
  }

  /** No two threats of a list share an id. */
  predicate UniqueIds(threats: seq<Threat>) {
    forall i, j :: 0 <= i < j < |threats| ==> threats[i].id != threats[j].id
  }

  /** With unique ids, looking up an entry's id finds that entry. */
  lemma {:induction false} FindThreatOfEntry(threats: seq<Threat>, i: nat)
    requires UniqueIds(threats)
    requires i < |threats|
    ensures FindThreat(threats, threats[i].id) == Some(threats[i])
  {
    if i > 0 {
      assert threats[0].id != threats[i].id;
      assert threats[1..][i - 1] == threats[i];
      FindThreatOfEntry(threats[1..], i - 1);
    }
  }

  /** getThreat(id): the catalog entry with that id, if any. */
  function GetThreat(id: string): (r: Option<Threat>)
    ensures r.Some? ==> r.value in Catalog && r.value.id == id
    ensures r.None? <==> forall i :: 0 <= i < |Catalog| ==> Catalog[i].id != id
  {
    FindThreat(Catalog, id)
  }

  // ---- Data integrity of the catalog ----

  /** The number of mitigations of a list whose valid targets are `targets`. */
  function CountTargets(ms: seq<Mitigation>, targets: seq<Target>): nat {
    if ms == [] then 0
    else (if ms[0].validTargets == targets then 1 else 0) + CountTargets(ms[1..], targets)
  }

  /** The number of mitigations across a list of threats. */
  function MitigationTotal(threats: seq<Threat>): nat {
    if threats == [] then 0 else |threats[0].mitigations| + MitigationTotal(threats[1..])
  }

  /** The number of mitigations across a list of threats whose valid targets are `targets`. */
  function CountWithTargets(threats: seq<Threat>, targets: seq<Target>): nat {
    if threats == [] then 0
    else CountTargets(threats[0].mitigations, targets) + CountWithTargets(threats[1..], targets)
  }

  /** Threat ids are unique. */
  lemma CatalogIdsUnique()
    ensures UniqueIds(Catalog)
  {
  }

  /** getThreat(t.id) finds t for every catalog entry t. */
  lemma GetThreatOfEntry(i: nat)
    requires i < |Catalog|
    ensures GetThreat(Catalog[i].id) == Some(Catalog[i])
  {
    CatalogIdsUnique();
    FindThreatOfEntry(Catalog, i);
  }

  /**
   * A mitigation has a non-empty label, a non-empty fragment and non-empty
   * valid targets, which are either all four targets or the managed target
   * alone.
   */
  predicate WellFormedMitigation(m: Mitigation) {
    && m.labelText != ""
    && |m.settingsFragment| > 0
    && |m.validTargets| > 0
    && (m.validTargets == AllTargets || m.validTargets == ManagedOnly)
  }

  /** A threat has an id, a name and at least one mitigation, each well formed. */
  predicate WellFormedThreat(t: Threat) {
    && t.id != ""
    && t.name != ""
    && |t.mitigations| > 0
    && forall j :: 0 <= j < |t.mitigations| ==> WellFormedMitigation(t.mitigations[j])
  }

  /** Peeling one threat off the front of a suffix of the list. */
  lemma CountStep(threats: seq<Threat>, targets: seq<Target>, k: nat)
    requires k < |threats|
    ensures MitigationTotal(threats[k..]) == |threats[k].mitigations| + MitigationTotal(threats[k + 1..])
    ensures CountWithTargets(threats[k..], targets)
      == CountTargets(threats[k].mitigations, targets) + CountWithTargets(threats[k + 1..], targets)
  {
    assert threats[k..][1..] == threats[k + 1..];
  }

  /** The totals of an eight-threat list, threat by threat. */
  lemma CountsOfEight(threats: seq<Threat>, targets: seq<Target>)
    requires |threats| == 8
    ensures MitigationTotal(threats) ==
      |threats[0].mitigations| + |threats[1].mitigations| + |threats[2].mitigations| + |threats[3].mitigations|
      + |threats[4].mitigations| + |threats[5].mitigations| + |threats[6].mitigations| + |threats[7].mitigations|
    ensures CountWithTargets(threats, targets) ==
      CountTargets(threats[0].mitigations, targets) + CountTargets(threats[1].mitigations, targets)
      + CountTargets(threats[2].mitigations, targets) + CountTargets(threats[3].mitigations, targets)
      + CountTargets(threats[4].mitigations, targets) + CountTargets(threats[5].mitigations, targets)
      + CountTargets(threats[6].mitigations, targets) + CountTargets(threats[7].mitigations, targets)
  {
    assert threats[0..] == threats;
    assert threats[8..] == [];
    CountStep(threats, targets, 0);
    CountStep(threats, targets, 1);
    CountStep(threats, targets, 2);
    CountStep(threats, targets, 3);
    CountStep(threats, targets, 4);
    CountStep(threats, targets, 5);
    CountStep(threats, targets, 6);
    CountStep(threats, targets, 7);
  }

  // The facts of each threat: well formed, with its number of mitigations
  // valid for all targets and for the managed target only.

  lemma DataExfiltrationWellFormed() ensures WellFormedThreat(DataExfiltration) {}

  lemma DataExfiltrationCounts()
    ensures |DataExfiltration.mitigations| == 3
    ensures CountTargets(DataExfiltration.mitigations, AllTargets) == 3
    ensures CountTargets(DataExfiltration.mitigations, ManagedOnly) == 0
  {
    var ms := DataExfiltration.mitigations;
    assert ms[3..] == [];
    assert ManagedOnly != AllTargets by { assert |ManagedOnly| != |AllTargets|; }
    assert CountTargets(ms[2..], AllTargets) == 1 && CountTargets(ms[2..], ManagedOnly) == 0;
    assert CountTargets(ms[1..], AllTargets) == 2 && CountTargets(ms[1..], ManagedOnly) == 0;
  }

  lemma SecretsTheftWellFormed() ensures WellFormedThreat(SecretsTheft) {}

  lemma SecretsTheftCounts()
    ensures |SecretsTheft.mitigations| == 2
    ensures CountTargets(SecretsTheft.mitigations, AllTargets) == 2
    ensures CountTargets(SecretsTheft.mitigations, ManagedOnly) == 0
  {
    var ms := SecretsTheft.mitigations;
    assert ms[2..] == [];
    assert ManagedOnly != AllTargets by { assert |ManagedOnly| != |AllTargets|; }
    assert CountTargets(ms[1..], AllTargets) == 1 && CountTargets(ms[1..], ManagedOnly) == 0;
  }

  lemma MaliciousMcpWellFormed() ensures WellFormedThreat(MaliciousMcp) {}

  lemma MaliciousMcpCounts()
    ensures |MaliciousMcp.mitigations| == 2
    ensures CountTargets(MaliciousMcp.mitigations, AllTargets) == 1
    ensures CountTargets(MaliciousMcp.mitigations, ManagedOnly) == 1
  {
    var ms := MaliciousMcp.mitigations;
    assert ms[2..] == [];
    assert ms[1].validTargets == ManagedOnly;
    assert ManagedOnly != AllTargets by { assert |ManagedOnly| != |AllTargets|; }
    assert CountTargets(ms[1..], AllTargets) == 0 && CountTargets(ms[1..], ManagedOnly) == 1;
  }

  lemma PrivilegeEscalationWellFormed() ensures WellFormedThreat(PrivilegeEscalation) {}

  lemma PrivilegeEscalationCounts()
    ensures |PrivilegeEscalation.mitigations| == 1
    ensures CountTargets(PrivilegeEscalation.mitigations, AllTargets) == 1
    ensures CountTargets(PrivilegeEscalation.mitigations, ManagedOnly) == 0
  {
    assert PrivilegeEscalation.mitigations[1..] == [];
    assert ManagedOnly != AllTargets by { assert |ManagedOnly| != |AllTargets|; }
  }

  lemma PermissionBypassWellFormed() ensures WellFormedThreat(PermissionBypass) {}

  lemma PermissionBypassCounts()
    ensures |PermissionBypass.mitigations| == 1
    ensures CountTargets(PermissionBypass.mitigations, AllTargets) == 0
    ensures CountTargets(PermissionBypass.mitigations, ManagedOnly) == 1
  {
    assert PermissionBypass.mitigations[1..] == [];
    assert ManagedOnly != AllTargets by { assert |ManagedOnly| != |AllTargets|; }
  }

  lemma ConfigOverrideWellFormed() ensures WellFormedThreat(ConfigOverride) {}

  lemma ConfigOverrideCounts()
    ensures |ConfigOverride.mitigations| == 2
    ensures CountTargets(ConfigOverride.mitigations, AllTargets) == 0
    ensures CountTargets(ConfigOverride.mitigations, ManagedOnly) == 2
  {
    var ms := ConfigOverride.mitigations;
    assert ms[2..] == [];
    assert ms[1].validTargets == ManagedOnly;
    assert ManagedOnly != AllTargets by { assert |ManagedOnly| != |AllTargets|; }
    assert CountTargets(ms[1..], AllTargets) == 0 && CountTargets(ms[1..], ManagedOnly) == 1;
  }

  lemma DestructiveOpsWellFormed() ensures WellFormedThreat(DestructiveOps) {}

  lemma DestructiveOpsCounts()
    ensures |DestructiveOps.mitigations| == 2
    ensures CountTargets(DestructiveOps.mitigations, AllTargets) == 2
    ensures CountTargets(DestructiveOps.mitigations, ManagedOnly) == 0
  {
    var ms := DestructiveOps.mitigations;
    assert ms[2..] == [];
    assert ManagedOnly != AllTargets by { assert |ManagedOnly| != |AllTargets|; }
    assert CountTargets(ms[1..], AllTargets) == 1 && CountTargets(ms[1..], ManagedOnly) == 0;
  }

  lemma SandboxEnforcementWellFormed() ensures WellFormedThreat(SandboxEnforcement) {}

  lemma SandboxEnforcementCounts()
    ensures |SandboxEnforcement.mitigations| == 1
    ensures CountTargets(SandboxEnforcement.mitigations, AllTargets) == 1
    ensures CountTargets(SandboxEnforcement.mitigations, ManagedOnly) == 0
  {
    assert SandboxEnforcement.mitigations[1..] == [];
    assert ManagedOnly != AllTargets by { assert |ManagedOnly| != |AllTargets|; }
  }

  /** Every threat has an id, a name and mitigations, each well formed. */
  lemma CatalogWellFormed()
    ensures forall i :: 0 <= i < |Catalog| ==> WellFormedThreat(Catalog[i])
  {
    DataExfiltrationWellFormed();
    SecretsTheftWellFormed();
    MaliciousMcpWellFormed();
    PrivilegeEscalationWellFormed();
    PermissionBypassWellFormed();
    ConfigOverrideWellFormed();
    DestructiveOpsWellFormed();
    SandboxEnforcementWellFormed();
  }

  /** 8 threats and 14 mitigations: 10 valid for all targets and 4 managed-only. */
  lemma CatalogCounts()
    ensures |Catalog| == 8
    ensures MitigationTotal(Catalog) == 14
    ensures CountWithTargets(Catalog, AllTargets) == 10
    ensures CountWithTargets(Catalog, ManagedOnly) == 4
  {
    DataExfiltrationCounts();
    SecretsTheftCounts();
    MaliciousMcpCounts();
    PrivilegeEscalationCounts();
    PermissionBypassCounts();
    ConfigOverrideCounts();
    DestructiveOpsCounts();
    SandboxEnforcementCounts();
    CountsOfEight(Catalog, AllTargets);
    CountsOfEight(Catalog, ManagedOnly);
  }
}
