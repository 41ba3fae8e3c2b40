/**
 * Properties of the settings generator. Most hold for every catalog whose
 * mitigations are well formed, shaped as the generator expects, and keep
 * to the settings keys of their targets (`CatalogOk`); `CatalogIsOk`
 * shows that the threat catalog is such a catalog.
 */
module GenerateProperties {
  import opened Json
  import opened Merge
  import opened Threats
  import opened Engine

  // ---- Shapes and key sets ----

  /** The deny list of a settings object: empty when absent or not a list. */
  function DenyOf(s: map<string, Value>): seq<Value> {
    var perms := Lookup(s, "permissions");
    if perms.Obj? then ArrayOrEmpty(Lookup(perms.fields, "deny")) else []
  }

  /** `permissions` and `permissions.deny`, when present, are an object and a list. */
  predicate FragmentShaped(f: map<string, Value>) {
    && ("permissions" in f ==> f["permissions"].Obj?)
    && ("permissions" in f ==> var p := f["permissions"].fields; "deny" in p ==> p["deny"].Arr?)
  }

  /**
   * `sandbox`, when set, is an object, whose `network`, when set, is an
   * object and whose `excludedCommands`, when set, is a list.
   */
  predicate SandboxShaped(s: map<string, Value>) {
    var sb := Lookup(s, "sandbox");
    && (sb.Obj? || sb.Undefined?)
    && (sb.Obj? ==> var n := Lookup(sb.fields, "network"); n.Obj? || n.Undefined?)
    && (sb.Obj? ==> var e := Lookup(sb.fields, "excludedCommands"); e.Arr? || e.Undefined?)
  }

  /** The top-level keys a fragment may set for any target. */
  const CatalogKeys: set<string> := {"permissions", "sandbox", "enableAllProjectMcpServers",
    "strictKnownMarketplaces", "allowManagedPermissionRulesOnly", "allowManagedHooksOnly"}

  /** The top-level keys a fragment valid for a personal or project scope may set. */
  const PersonalKeys: set<string> := {"permissions", "sandbox", "enableAllProjectMcpServers"}

  /** The top-level keys the rule pass may produce for a target. */
  function RuleKeys(t: Target): set<string> {
    if t == Managed then CatalogKeys else PersonalKeys
  }

  /** The MCP server list keys, which only the managed target receives. */
  const McpKeys: set<string> := {"allowedMcpServers", "deniedMcpServers"}

  /** The top-level keys a settings object may hold before the schema is stamped. */
  function TargetKeys(t: Target): set<string> {
    if t == Managed then CatalogKeys + McpKeys else PersonalKeys
  }

  /** The keys the `permissions` object may hold. */
  function TargetPermissionKeys(t: Target): set<string> {
    if t == Managed then {"deny", "disableBypassPermissionsMode"} else {"deny"}
  }

  /** The top-level keys are within `top`, and the keys of an object `permissions` within `perm`. */
  predicate KeysWithin(s: map<string, Value>, top: set<string>, perm: set<string>) {
    && s.Keys <= top
    && ("permissions" in s && s["permissions"].Obj? ==> s["permissions"].fields.Keys <= perm)
  }

  /**
   * What the generator relies on in a mitigation: it is well formed, its
   * fragment is shaped, and its keys are those of the targets it is valid
   * for.
   */
  predicate MitigationOk(m: Mitigation) {
    && WellFormedMitigation(m)
    && FragmentShaped(m.settingsFragment)
    && SandboxShaped(m.settingsFragment)
    && KeysWithin(m.settingsFragment, CatalogKeys, TargetPermissionKeys(Managed))
    && (m.validTargets == AllTargets ==> KeysWithin(m.settingsFragment, PersonalKeys, {"deny"}))
  }

  predicate ThreatOk(t: Threat) {
    forall j :: 0 <= j < |t.mitigations| ==> MitigationOk(t.mitigations[j])
  }

  predicate CatalogOk(catalog: seq<Threat>) {
    forall i :: 0 <= i < |catalog| ==> ThreatOk(catalog[i])
  }

  /** Every mitigation the generator walks comes from the catalog. */
  lemma MitigationsInOk(catalog: seq<Threat>, id: string)
    requires CatalogOk(catalog)
    ensures forall j :: 0 <= j < |MitigationsIn(catalog, id)| ==> MitigationOk(MitigationsIn(catalog, id)[j])
  {
    var r := FindThreat(catalog, id);
    if r.Some? {
      var i :| 0 <= i < |catalog| && catalog[i] == r.value;
      assert ThreatOk(catalog[i]);
    }
  }

  /** For a well-formed mitigation, the managed target is valid and the three others agree. */
  lemma ValidityOfOk(m: Mitigation)
    requires WellFormedMitigation(m)
    ensures IsValidFor(m, Managed)
    ensures IsValidFor(m, User) == IsValidFor(m, Project) == IsValidFor(m, Local)
    ensures IsValidFor(m, User) ==> m.validTargets == AllTargets
    ensures !IsValidFor(m, User) ==> m.validTargets == ManagedOnly
  {
  }

  // ---- The threat catalog meets CatalogOk ----

  lemma NetworkLockdownOk() ensures MitigationOk(DataExfiltration.mitigations[2]) {}
  lemma DataExfiltrationOk() ensures ThreatOk(DataExfiltration) { NetworkLockdownOk(); }
  lemma SecretsTheftOk() ensures ThreatOk(SecretsTheft) {}
  lemma MaliciousMcpOk() ensures ThreatOk(MaliciousMcp) {}
  lemma PrivilegeEscalationOk() ensures ThreatOk(PrivilegeEscalation) {}
  lemma PermissionBypassOk() ensures ThreatOk(PermissionBypass) {}
  lemma ConfigOverrideOk() ensures ThreatOk(ConfigOverride) {}
  lemma DestructiveOpsOk() ensures ThreatOk(DestructiveOps) {}
  lemma SandboxEnforcementOk() ensures ThreatOk(SandboxEnforcement) {}

  lemma CatalogIsOk()
    ensures CatalogOk(Catalog)
  {
    DataExfiltrationOk();
    SecretsTheftOk();
    MaliciousMcpOk();
    PrivilegeEscalationOk();
    PermissionBypassOk();
    ConfigOverrideOk();
    DestructiveOpsOk();
    SandboxEnforcementOk();
  }

  // ---- Partition of the mitigations into applied and skipped ----

  /** The number of mitigations the rule pass walks for `ids`. */
  function MitigationCount(catalog: seq<Threat>, ids: seq<string>): nat
    decreases |ids|
  {
    if ids == [] then 0
    else MitigationCount(catalog, ids[..|ids| - 1]) + |MitigationsIn(catalog, ids[|ids| - 1])|
  }

  /** The labels of the first `n` mitigations of `ms`, in order. */
  function Labels(ms: seq<Mitigation>, n: nat): seq<string>
    requires n <= |ms|
  {
    if n == 0 then [] else Labels(ms, n - 1) + [ms[n - 1].labelText]
  }

  /** Every label of every mitigation walked for `ids`, in walking order. */
  function AllLabels(catalog: seq<Threat>, ids: seq<string>): seq<string>
    decreases |ids|
  {
    if ids == [] then []
    else
      var ms := MitigationsIn(catalog, ids[|ids| - 1]);
      AllLabels(catalog, ids[..|ids| - 1]) + Labels(ms, |ms|)
  }

  lemma {:induction false} ThreatPartition(id: string, ms: seq<Mitigation>, n: nat, t: Target)
    requires n <= |ms|
    ensures |AppliedLabels(ms, n, t)| + |SkippedEntries(id, ms, n, t)| == n
  {
    if n > 0 {
      ThreatPartition(id, ms, n - 1, t);
    }
  }

  /** Each walked mitigation lands in exactly one of the two lists. */
  lemma {:induction false} RulePartition(catalog: seq<Threat>, ids: seq<string>, t: Target)
    ensures |Applied(catalog, ids, t)| + |Skipped(catalog, ids, t)| == MitigationCount(catalog, ids)
    decreases |ids|
  {
    if ids != [] {
      var ms := MitigationsIn(catalog, ids[|ids| - 1]);
      RulePartition(catalog, ids[..|ids| - 1], t);
      ThreatPartition(ids[|ids| - 1], ms, |ms|, t);
    }
  }

  /** The reason recorded for a managed-only mitigation. */
  lemma SkipReasonManagedOnly(m: Mitigation)
    requires m.validTargets == ManagedOnly
    ensures SkipReason(m) == "Only valid for: managed"
  {
  }

  lemma {:induction false} ThreatSkipsManagedOnly(id: string, ms: seq<Mitigation>, n: nat, t: Target)
    requires n <= |ms|
    requires forall j :: 0 <= j < |ms| ==> WellFormedMitigation(ms[j])
    ensures forall k :: 0 <= k < |SkippedEntries(id, ms, n, t)| ==>
      SkippedEntries(id, ms, n, t)[k].threatId == id
      && SkippedEntries(id, ms, n, t)[k].reason == "Only valid for: managed"
  {
    if n > 0 {
      ThreatSkipsManagedOnly(id, ms, n - 1, t);
      var m := ms[n - 1];
      if !IsValidFor(m, t) {
        ValidityOfOk(m);
        SkipReasonManagedOnly(m);
      }
    }
  }

  /** `e` is the warning for mitigation `m` of threat `id`, which is not valid for `t`. */
  predicate WarnsAbout(e: SkippedMitigation, id: string, m: Mitigation, t: Target) {
    !IsValidFor(m, t) && e == SkippedMitigation(id, m.labelText, SkipReason(m))
  }

  /**
   * Every skip entry of a threat is the warning for one of its mitigations
   * that is not valid for the target: the threat's id, that mitigation's
   * label and the list of targets it is valid for.
   */
  lemma {:induction false} SkipEntriesNameMitigations(id: string, ms: seq<Mitigation>, n: nat, t: Target)
    requires n <= |ms|
    ensures forall k :: 0 <= k < |SkippedEntries(id, ms, n, t)| ==>
      exists j :: 0 <= j < n && WarnsAbout(SkippedEntries(id, ms, n, t)[k], id, ms[j], t)
  {
    if n > 0 {
      SkipEntriesNameMitigations(id, ms, n - 1, t);
      var prev := SkippedEntries(id, ms, n - 1, t);
      var cur := SkippedEntries(id, ms, n, t);
      var m := ms[n - 1];
      assert cur == prev + (if IsValidFor(m, t) then [] else [SkippedMitigation(id, m.labelText, SkipReason(m))]);
      forall k | 0 <= k < |cur|
        ensures exists j :: 0 <= j < n && WarnsAbout(cur[k], id, ms[j], t)
      {
        if k < |prev| {
          var j :| 0 <= j < n - 1 && WarnsAbout(prev[k], id, ms[j], t);
          assert cur[k] == prev[k];
          assert WarnsAbout(cur[k], id, ms[j], t);
        } else {
          assert WarnsAbout(cur[k], id, ms[n - 1], t);
        }
      }
      assert forall k :: 0 <= k < |cur| ==> exists j :: 0 <= j < n && WarnsAbout(cur[k], id, ms[j], t);
    } else {
      assert SkippedEntries(id, ms, n, t) == [];
    }
  }

  lemma {:induction false} ThreatManagedAppliesAll(id: string, ms: seq<Mitigation>, n: nat)
    requires n <= |ms|
    requires forall j :: 0 <= j < |ms| ==> WellFormedMitigation(ms[j])
    ensures SkippedEntries(id, ms, n, Managed) == []
    ensures AppliedLabels(ms, n, Managed) == Labels(ms, n)
  {
    if n > 0 {
      ThreatManagedAppliesAll(id, ms, n - 1);
      ValidityOfOk(ms[n - 1]);
    }
  }

  /**
   * Over a catalog with CatalogOk: every skip entry names an enabled id
   * and the reason "Only valid for: managed"; the managed target skips
   * nothing and applies every mitigation, in walking order.
   */
  lemma {:induction false} SkippedAreManagedOnly(catalog: seq<Threat>, ids: seq<string>, t: Target)
    requires CatalogOk(catalog)
    ensures forall k :: 0 <= k < |Skipped(catalog, ids, t)| ==>
      Skipped(catalog, ids, t)[k].threatId in ids
      && Skipped(catalog, ids, t)[k].reason == "Only valid for: managed"
    ensures t == Managed ==> Skipped(catalog, ids, t) == []
    ensures t == Managed ==> Applied(catalog, ids, t) == AllLabels(catalog, ids)
    decreases |ids|
  {
    if ids != [] {
      var init := ids[..|ids| - 1];
      var id := ids[|ids| - 1];
      var ms := MitigationsIn(catalog, id);
      SkippedAreManagedOnly(catalog, init, t);
      MitigationsInOk(catalog, id);
      ThreatSkipsManagedOnly(id, ms, |ms|, t);
      if t == Managed {
        ThreatManagedAppliesAll(id, ms, |ms|);
      }
      assert forall x :: x in init ==> x in ids;
    }
  }

  /** The managed target applies at least as many mitigations as any other. */
  lemma ManagedAppliesMost(catalog: seq<Threat>, ids: seq<string>, t: Target)
    requires CatalogOk(catalog)
    ensures |Applied(catalog, ids, t)| <= |Applied(catalog, ids, Managed)| == MitigationCount(catalog, ids)
  {
    RulePartition(catalog, ids, t);
    RulePartition(catalog, ids, Managed);
    SkippedAreManagedOnly(catalog, ids, Managed);
  }

  // ---- Scope invariance ----

  lemma {:induction false} ThreatPassAgrees(
    s: map<string, Value>, id: string, ms: seq<Mitigation>, n: nat, t1: Target, t2: Target)
    requires n <= |ms|
    requires forall j :: 0 <= j < |ms| ==> IsValidFor(ms[j], t1) == IsValidFor(ms[j], t2)
    ensures MergeMitigations(s, ms, n, t1) == MergeMitigations(s, ms, n, t2)
    ensures AppliedLabels(ms, n, t1) == AppliedLabels(ms, n, t2)
    ensures SkippedEntries(id, ms, n, t1) == SkippedEntries(id, ms, n, t2)
  {
    if n > 0 {
      ThreatPassAgrees(s, id, ms, n - 1, t1, t2);
    }
  }

  lemma {:induction false} RulePassAgrees(catalog: seq<Threat>, ids: seq<string>, t1: Target, t2: Target)
    requires CatalogOk(catalog)
    requires t1 != Managed && t2 != Managed
    ensures RuleSettings(catalog, ids, t1) == RuleSettings(catalog, ids, t2)
    ensures Applied(catalog, ids, t1) == Applied(catalog, ids, t2)
    ensures Skipped(catalog, ids, t1) == Skipped(catalog, ids, t2)
    decreases |ids|
  {
    if ids != [] {
      var init := ids[..|ids| - 1];
      var id := ids[|ids| - 1];
      var ms := MitigationsIn(catalog, id);
      RulePassAgrees(catalog, init, t1, t2);
      MitigationsInOk(catalog, id);
      forall j | 0 <= j < |ms|
        ensures IsValidFor(ms[j], t1) == IsValidFor(ms[j], t2)
      {
        ValidityOfOk(ms[j]);
      }
      ThreatPassAgrees(RuleSettings(catalog, init, t1), id, ms, |ms|, t1, t2);
    }
  }

  /** `user`, `project` and `local` yield identical results. */
  lemma ScopeInvariance(catalog: seq<Threat>, input: GenerationInput, t1: Target, t2: Target)
    requires CatalogOk(catalog)
    requires t1 != Managed && t2 != Managed
    ensures GenerateWith(catalog, input.(target := t1)) == GenerateWith(catalog, input.(target := t2))
  {
    RulePassAgrees(catalog, input.enabledThreats, t1, t2);
  }

  // ---- Unknown threat ids ----

  /** One step of the rule pass extends equal settings equally. */
  lemma SameIdStepSettings(catalog: seq<Threat>, x: seq<string>, y: seq<string>, last: string, t: Target)
    requires RuleSettings(catalog, x, t) == RuleSettings(catalog, y, t)
    ensures RuleSettings(catalog, x + [last], t) == RuleSettings(catalog, y + [last], t)
  {
    assert (x + [last])[..|x + [last]| - 1] == x;
    assert (y + [last])[..|y + [last]| - 1] == y;
  }

  /** An unknown id at the end of the list leaves the settings as they were. */
  lemma UnknownLastSettings(catalog: seq<Threat>, a: seq<string>, id: string, t: Target)
    requires FindThreat(catalog, id).None?
    ensures RuleSettings(catalog, a + [id], t) == RuleSettings(catalog, a, t)
  {
    assert (a + [id])[..|a + [id]| - 1] == a;
    assert MitigationsIn(catalog, id) == [];
  }

  /** One step of the rule pass extends equal applied labels equally. */
  lemma SameIdStepApplied(catalog: seq<Threat>, x: seq<string>, y: seq<string>, last: string, t: Target)
    requires Applied(catalog, x, t) == Applied(catalog, y, t)
    ensures Applied(catalog, x + [last], t) == Applied(catalog, y + [last], t)
  {
    assert (x + [last])[..|x + [last]| - 1] == x;
    assert (y + [last])[..|y + [last]| - 1] == y;
  }

  /** An unknown id at the end of the list leaves the applied labels as they were. */
  lemma UnknownLastApplied(catalog: seq<Threat>, a: seq<string>, id: string, t: Target)
    requires FindThreat(catalog, id).None?
    ensures Applied(catalog, a + [id], t) == Applied(catalog, a, t)
  {
    assert (a + [id])[..|a + [id]| - 1] == a;
    assert MitigationsIn(catalog, id) == [];
  }

  /** One step of the rule pass extends equal skip entries equally. */
  lemma SameIdStepSkipped(catalog: seq<Threat>, x: seq<string>, y: seq<string>, last: string, t: Target)
    requires Skipped(catalog, x, t) == Skipped(catalog, y, t)
    ensures Skipped(catalog, x + [last], t) == Skipped(catalog, y + [last], t)
  {
    assert (x + [last])[..|x + [last]| - 1] == x;
    assert (y + [last])[..|y + [last]| - 1] == y;
  }

  /** An unknown id at the end of the list leaves the skip entries as they were. */
  lemma UnknownLastSkipped(catalog: seq<Threat>, a: seq<string>, id: string, t: Target)
    requires FindThreat(catalog, id).None?
    ensures Skipped(catalog, a + [id], t) == Skipped(catalog, a, t)
  {
    assert (a + [id])[..|a + [id]| - 1] == a;
    assert MitigationsIn(catalog, id) == [];
  }

  /** An id the catalog does not hold, anywhere in the list, adds nothing to the settings. */
  lemma {:induction false} UnknownIdSettings(catalog: seq<Threat>, a: seq<string>, id: string, b: seq<string>, t: Target)
    requires FindThreat(catalog, id).None?
    ensures RuleSettings(catalog, a + [id] + b, t) == RuleSettings(catalog, a + b, t)
    decreases |b|
  {
    if b == [] {
      assert a + [id] + b == a + [id];
      assert a + b == a;
      UnknownLastSettings(catalog, a, id, t);
    } else {
      var b0 := b[..|b| - 1];
      var x := b[|b| - 1];
      UnknownIdSettings(catalog, a, id, b0, t);
      assert b == b0 + [x];
      ConcatAssoc(a + [id], b0, [x]);
      ConcatAssoc(a, b0, [x]);
      SameIdStepSettings(catalog, a + [id] + b0, a + b0, x, t);
    }
  }

  /** An id the catalog does not hold, anywhere in the list, adds nothing to the applied labels. */
  lemma {:induction false} UnknownIdApplied(catalog: seq<Threat>, a: seq<string>, id: string, b: seq<string>, t: Target)
    requires FindThreat(catalog, id).None?
    ensures Applied(catalog, a + [id] + b, t) == Applied(catalog, a + b, t)
    decreases |b|
  {
    if b == [] {
      assert a + [id] + b == a + [id];
      assert a + b == a;
      UnknownLastApplied(catalog, a, id, t);
    } else {
      var b0 := b[..|b| - 1];
      var x := b[|b| - 1];
      UnknownIdApplied(catalog, a, id, b0, t);
      assert b == b0 + [x];
      ConcatAssoc(a + [id], b0, [x]);
      ConcatAssoc(a, b0, [x]);
      SameIdStepApplied(catalog, a + [id] + b0, a + b0, x, t);
    }
  }

  /** An id the catalog does not hold, anywhere in the list, adds nothing to the skip entries. */
  lemma {:induction false} UnknownIdSkipped(catalog: seq<Threat>, a: seq<string>, id: string, b: seq<string>, t: Target)
    requires FindThreat(catalog, id).None?
    ensures Skipped(catalog, a + [id] + b, t) == Skipped(catalog, a + b, t)
    decreases |b|
  {
    if b == [] {
      assert a + [id] + b == a + [id];
      assert a + b == a;
      UnknownLastSkipped(catalog, a, id, t);
    } else {
      var b0 := b[..|b| - 1];
      var x := b[|b| - 1];
      UnknownIdSkipped(catalog, a, id, b0, t);
      assert b == b0 + [x];
      ConcatAssoc(a + [id], b0, [x]);
      ConcatAssoc(a, b0, [x]);
      SameIdStepSkipped(catalog, a + [id] + b0, a + b0, x, t);
    }
  }

  /** An id the catalog does not hold adds nothing to settings, applied or skipped. */
  lemma UnknownIdIgnored(catalog: seq<Threat>, a: seq<string>, id: string, b: seq<string>, t: Target)
    requires FindThreat(catalog, id).None?
    ensures RuleSettings(catalog, a + [id] + b, t) == RuleSettings(catalog, a + b, t)
    ensures Applied(catalog, a + [id] + b, t) == Applied(catalog, a + b, t)
    ensures Skipped(catalog, a + [id] + b, t) == Skipped(catalog, a + b, t)
  {
    UnknownIdSettings(catalog, a, id, b, t);
    UnknownIdApplied(catalog, a, id, b, t);
    UnknownIdSkipped(catalog, a, id, b, t);
  }

  lemma UnknownIdIgnoredByGenerate(catalog: seq<Threat>, input: GenerationInput, a: seq<string>, id: string, b: seq<string>)
    requires FindThreat(catalog, id).None?
    ensures GenerateWith(catalog, input.(enabledThreats := a + [id] + b))
      == GenerateWith(catalog, input.(enabledThreats := a + b))
  {
    UnknownIdIgnored(catalog, a, id, b, input.target);
  }

  // ---- The deny list ----

  /** A fragment that sets `permissions.deny`. */
  predicate HasDeny(f: map<string, Value>) {
    "permissions" in f && f["permissions"].Obj? && "deny" in f["permissions"].fields
  }

  /** The deny entries of the first `n` mitigations of `ms` valid for `t`, concatenated in order. */
  function FragmentDenies(ms: seq<Mitigation>, n: nat, t: Target): seq<Value>
    requires n <= |ms|
  {
    if n == 0 then []
    else FragmentDenies(ms, n - 1, t) + (if IsValidFor(ms[n - 1], t) then DenyOf(ms[n - 1].settingsFragment) else [])
  }

  /** The deny entries of every applied mitigation, in enabled-threat then mitigation order. */
  function DenyConcat(catalog: seq<Threat>, ids: seq<string>, t: Target): seq<Value>
    decreases |ids|
  {
    if ids == [] then []
    else
      var ms := MitigationsIn(catalog, ids[|ids| - 1]);
      DenyConcat(catalog, ids[..|ids| - 1], t) + FragmentDenies(ms, |ms|, t)
  }

  /** Merging a fragment unions its deny list onto the base's, or keeps the base's. */
  lemma MergeDeny(b: map<string, Value>, f: map<string, Value>)
    requires FragmentShaped(f)
    ensures HasDeny(f) ==> DenyOf(MergeSettings(Obj(b), Obj(f))) == Dedup(DenyOf(b) + DenyOf(f))
    ensures !HasDeny(f) ==> DenyOf(MergeSettings(Obj(b), Obj(f))) == DenyOf(b) && DenyOf(f) == []
  {
    var r := MergeObjects(b, f, "");
    if "permissions" in f {
      MergePermissions(b, f["permissions"].fields);
      MergeRecursesIntoObjects(b, f, "", "permissions");
      assert FullPath("", "permissions") == "permissions";
    } else {
      assert Lookup(r, "permissions") == Lookup(b, "permissions");
    }
  }

  /** The deny list of a merged `permissions` object. */
  lemma MergePermissions(b: map<string, Value>, fp: map<string, Value>)
    requires "deny" in fp ==> fp["deny"].Arr?
    ensures var bv := Lookup(b, "permissions");
      var bp := if bv.Obj? then bv.fields else map[];
      var r := Lookup(MergeObjects(bp, fp, "permissions"), "deny");
      && ("deny" in fp ==> ArrayOrEmpty(r) == Dedup(DenyOf(b) + fp["deny"].items))
      && ("deny" !in fp ==> ArrayOrEmpty(r) == DenyOf(b))
  {
    var bv := Lookup(b, "permissions");
    var bp := if bv.Obj? then bv.fields else map[];
    if "deny" in fp {
      assert FullPath("permissions", "deny") == "permissions.deny";
      MergeUnionsArrays(bp, fp, "permissions", "deny");
    }
  }

  lemma ConcatAssoc<T>(a: seq<T>, b: seq<T>, c: seq<T>)
    ensures a + (b + c) == (a + b) + c
  {
  }

  /** One mitigation of the rule pass, seen from the deny list. */
  lemma DenyStep(s: map<string, Value>, ms: seq<Mitigation>, n: nat, t: Target, y: seq<Value>)
    requires 0 < n <= |ms|
    requires FragmentShaped(ms[n - 1].settingsFragment)
    requires DenyOf(MergeMitigations(s, ms, n - 1, t)) == Dedup(y)
    ensures DenyOf(MergeMitigations(s, ms, n, t)) ==
      Dedup(y + (if IsValidFor(ms[n - 1], t) then DenyOf(ms[n - 1].settingsFragment) else []))
  {
    var f := ms[n - 1].settingsFragment;
    if IsValidFor(ms[n - 1], t) {
      MergeDeny(MergeMitigations(s, ms, n - 1, t), f);
      if HasDeny(f) {
        DedupAppend(y, DenyOf(f));
      } else {
        assert y + DenyOf(f) == y;
      }
    } else {
      assert y + [] == y;
    }
  }

  lemma {:induction false} ThreatDeny(s: map<string, Value>, ms: seq<Mitigation>, n: nat, t: Target, x: seq<Value>)
    requires n <= |ms|
    requires forall j :: 0 <= j < |ms| ==> FragmentShaped(ms[j].settingsFragment)
    requires DenyOf(s) == Dedup(x)
    ensures DenyOf(MergeMitigations(s, ms, n, t)) == Dedup(x + FragmentDenies(ms, n, t))
  {
    if n == 0 {
      assert x + [] == x;
    } else {
      ThreatDeny(s, ms, n - 1, t, x);
      var y := x + FragmentDenies(ms, n - 1, t);
      var d := if IsValidFor(ms[n - 1], t) then DenyOf(ms[n - 1].settingsFragment) else [];
      DenyStep(s, ms, n, t, y);
      ConcatAssoc(x, FragmentDenies(ms, n - 1, t), d);
    }
  }

  /** After the rule pass, the deny list is the applied deny entries, deduplicated. */
  lemma {:induction false} RuleDeny(catalog: seq<Threat>, ids: seq<string>, t: Target)
    requires CatalogOk(catalog)
    ensures DenyOf(RuleSettings(catalog, ids, t)) == Dedup(DenyConcat(catalog, ids, t))
    decreases |ids|
  {
    if ids != [] {
      var init := ids[..|ids| - 1];
      var ms := MitigationsIn(catalog, ids[|ids| - 1]);
      RuleDeny(catalog, init, t);
      MitigationsInOk(catalog, ids[|ids| - 1]);
      ThreatDeny(RuleSettings(catalog, init, t), ms, |ms|, t, DenyConcat(catalog, init, t));
    }
  }

  /** Deduplicating key by key keeps the key set. */
  lemma {:induction false} DedupKeysKeys(p: map<string, Value>, keys: seq<string>, n: nat)
    requires n <= |keys|
    ensures DedupKeys(p, keys, n).Keys == p.Keys
  {
    if n > 0 {
      DedupKeysKeys(p, keys, n - 1);
    }
  }

  /** Deduplicating one key touches only that key's array. */
  lemma DedupKeyAt(q: map<string, Value>, key: string, k: string)
    requires k in q
    ensures k in DedupKey(q, key)
    ensures DedupKey(q, key)[k] == if k == key && q[k].Arr? then Arr(Dedup(q[k].items)) else q[k]
  {
  }

  /** Each array under one of the keys is deduplicated; every other value is left alone. */
  lemma {:induction false} DedupKeysAt(p: map<string, Value>, keys: seq<string>, n: nat, k: string)
    requires n <= |keys|
    requires k in p
    ensures k in DedupKeys(p, keys, n)
    ensures DedupKeys(p, keys, n)[k] ==
      if k in keys[..n] && p[k].Arr? then Arr(Dedup(p[k].items)) else p[k]
  {
    if n > 0 {
      var q := DedupKeys(p, keys, n - 1);
      var key := keys[n - 1];
      DedupKeysAt(p, keys, n - 1, k);
      DedupKeyAt(q, key, k);
      assert DedupKeys(p, keys, n) == DedupKey(q, key);
      assert keys[..n] == keys[..n - 1] + [key];
      assert (k in keys[..n]) == (k in keys[..n - 1] || k == key);
      if k == key && p[k].Arr? && k in keys[..n - 1] {
        DedupIdempotent(p[k].items);
      }
    }
  }

  /** The safety net deduplicates the three permission arrays and changes nothing else. */
  lemma DedupPermissionsEffect(s: map<string, Value>)
    ensures DedupPermissions(s).Keys == s.Keys
    ensures forall k :: k in s && k != "permissions" ==> DedupPermissions(s)[k] == s[k]
    ensures DenyOf(DedupPermissions(s)) == Dedup(DenyOf(s))
    ensures "permissions" in s && s["permissions"].Obj? ==>
      && DedupPermissions(s)["permissions"].Obj?
      && DedupPermissions(s)["permissions"].fields.Keys == s["permissions"].fields.Keys
      && forall k :: k in PermissionKeys && k in DedupPermissions(s)["permissions"].fields
           && DedupPermissions(s)["permissions"].fields[k].Arr?
           ==> NoDup(DedupPermissions(s)["permissions"].fields[k].items)
  {
    var perms := Lookup(s, "permissions");
    if perms.Obj? {
      var p := perms.fields;
      var q := DedupKeys(p, PermissionKeys, |PermissionKeys|);
      assert PermissionKeys[..|PermissionKeys|] == PermissionKeys;
      DedupKeysKeys(p, PermissionKeys, |PermissionKeys|);
      forall k | k in PermissionKeys && k in q && q[k].Arr?
        ensures NoDup(q[k].items)
      {
        DedupKeysAt(p, PermissionKeys, |PermissionKeys|, k);
      }
      if "deny" in p {
        DedupKeysAt(p, PermissionKeys, |PermissionKeys|, "deny");
      }
    }
  }

  // ---- Keys: what each target can receive ----

  /** Merging keeps the top-level and permission keys within bounds both inputs respect. */
  lemma MergeKeys(b: map<string, Value>, f: map<string, Value>, top: set<string>, perm: set<string>)
    requires KeysWithin(b, top, perm) && KeysWithin(f, top, perm)
    requires FragmentShaped(f)
    ensures KeysWithin(MergeSettings(Obj(b), Obj(f)), top, perm)
  {
    var r := MergeObjects(b, f, "");
    if "permissions" in f {
      MergeRecursesIntoObjects(b, f, "", "permissions");
      var bv := Lookup(b, "permissions");
      var bp := if bv.Obj? then bv.fields else map[];
      assert MergeObjects(bp, f["permissions"].fields, "permissions").Keys <= perm;
    }
  }

  /** A fragment applied to a target keeps to that target's keys. */
  lemma FragmentKeys(m: Mitigation, t: Target)
    requires MitigationOk(m)
    requires IsValidFor(m, t)
    ensures KeysWithin(m.settingsFragment, RuleKeys(t), TargetPermissionKeys(t))
  {
    ValidityOfOk(m);
  }

  lemma {:induction false} ThreatKeys(s: map<string, Value>, ms: seq<Mitigation>, n: nat, t: Target)
    requires n <= |ms|
    requires forall j :: 0 <= j < |ms| ==> MitigationOk(ms[j])
    requires KeysWithin(s, RuleKeys(t), TargetPermissionKeys(t))
    ensures KeysWithin(MergeMitigations(s, ms, n, t), RuleKeys(t), TargetPermissionKeys(t))
  {
    if n > 0 {
      ThreatKeys(s, ms, n - 1, t);
      var m := ms[n - 1];
      if IsValidFor(m, t) {
        FragmentKeys(m, t);
        MergeKeys(MergeMitigations(s, ms, n - 1, t), m.settingsFragment, RuleKeys(t), TargetPermissionKeys(t));
      }
    }
  }

  /** The rule pass only produces keys some applied fragment sets. */
  lemma {:induction false} RuleKeysWithin(catalog: seq<Threat>, ids: seq<string>, t: Target)
    requires CatalogOk(catalog)
    ensures KeysWithin(RuleSettings(catalog, ids, t), RuleKeys(t), TargetPermissionKeys(t))
    decreases |ids|
  {
    if ids != [] {
      var ms := MitigationsIn(catalog, ids[|ids| - 1]);
      RuleKeysWithin(catalog, ids[..|ids| - 1], t);
      MitigationsInOk(catalog, ids[|ids| - 1]);
      ThreatKeys(RuleSettings(catalog, ids[..|ids| - 1], t), ms, |ms|, t);
    }
  }

  // ---- The passes after the rule pass ----

  /** The settings after every pass but the schema stamp. */
  function Unstamped(catalog: seq<Threat>, input: GenerationInput): map<string, Value> {
    var s0 := RuleSettings(catalog, input.enabledThreats, input.target);
    var s1 := WithAllowedDomains(s0, input.allowedDomains);
    var s2 := WithExcludedCommands(s1, input.sandboxExcludedCommands);
    DedupPermissions(WithMcpServers(s2, input))
  }

  /** `settings.sandbox.network`, or `Undefined`. */
  function NetworkOf(s: map<string, Value>): Value {
    var sandbox := Lookup(s, "sandbox");
    if sandbox.Obj? then Lookup(sandbox.fields, "network") else Undefined
  }

  /** `settings.sandbox.excludedCommands`, or `Undefined`. */
  function ExcludedOf(s: map<string, Value>): Value {
    var sandbox := Lookup(s, "sandbox");
    if sandbox.Obj? then Lookup(sandbox.fields, "excludedCommands") else Undefined
  }

  /** A pass that rewrites only an existing object `sandbox`. */
  predicate SandboxOnlyChange(s: map<string, Value>, s1: map<string, Value>) {
    && s1.Keys == s.Keys
    && (Lookup(s1, "sandbox").Obj? <==> Lookup(s, "sandbox").Obj?)
    && forall k :: k in s && k != "sandbox" ==> s1[k] == s[k]
  }

  lemma DomainsFrame(s: map<string, Value>, domains: Option<seq<string>>)
    ensures SandboxOnlyChange(s, WithAllowedDomains(s, domains))
  {
  }

  lemma ExcludedFrame(s: map<string, Value>, commands: Option<seq<string>>)
    ensures SandboxOnlyChange(s, WithExcludedCommands(s, commands))
  {
  }

  lemma McpFrame(s: map<string, Value>, input: GenerationInput)
    ensures var s1 := WithMcpServers(s, input);
      && s.Keys <= s1.Keys
      && s1.Keys <= s.Keys + (if input.target == Managed then McpKeys else {})
      && forall k :: k in s && k !in McpKeys ==> s1[k] == s[k]
  {
  }

  /**
   * The customization passes touch only `sandbox` (which they never
   * create) and, for the managed target, the MCP server lists.
   */
  lemma PassesFrame(s: map<string, Value>, input: GenerationInput)
    ensures var s1 := WithAllowedDomains(s, input.allowedDomains);
      var s3 := WithMcpServers(WithExcludedCommands(s1, input.sandboxExcludedCommands), input);
      && s.Keys <= s3.Keys
      && s3.Keys <= s.Keys + (if input.target == Managed then McpKeys else {})
      && ("sandbox" in s3 <==> "sandbox" in s)
      && (Lookup(s3, "sandbox").Obj? <==> Lookup(s, "sandbox").Obj?)
      && Lookup(s3, "permissions") == Lookup(s, "permissions")
  {
    var s1 := WithAllowedDomains(s, input.allowedDomains);
    var s2 := WithExcludedCommands(s1, input.sandboxExcludedCommands);
    DomainsFrame(s, input.allowedDomains);
    ExcludedFrame(s1, input.sandboxExcludedCommands);
    McpFrame(s2, input);
  }

  /** The final settings are the unstamped ones, with `$schema` set unless it is switched off. */
  lemma FinalIsStamped(catalog: seq<Threat>, input: GenerationInput)
    ensures FinalSettings(catalog, input) == WithSchema(Unstamped(catalog, input), input.includeSchema)
  {
  }

  /**
   * The settings keep to the keys of their target: a personal or project
   * file never receives a managed-only key, and no file receives an
   * `allow` or `ask` rule list.
   */
  lemma FinalKeys(catalog: seq<Threat>, input: GenerationInput)
    requires CatalogOk(catalog)
    ensures KeysWithin(Unstamped(catalog, input), TargetKeys(input.target), TargetPermissionKeys(input.target))
    ensures KeysWithin(FinalSettings(catalog, input), TargetKeys(input.target) + {"$schema"},
      TargetPermissionKeys(input.target))
  {
    var s0 := RuleSettings(catalog, input.enabledThreats, input.target);
    RuleKeysWithin(catalog, input.enabledThreats, input.target);
    PassesFrame(s0, input);
    var s3 := WithMcpServers(WithExcludedCommands(WithAllowedDomains(s0, input.allowedDomains),
      input.sandboxExcludedCommands), input);
    DedupPermissionsEffect(s3);
    FinalIsStamped(catalog, input);
  }

  /** Outside the managed target, only these keys can appear. */
  lemma NoManagedOnlyKeys(catalog: seq<Threat>, input: GenerationInput)
    requires CatalogOk(catalog)
    requires input.target != Managed
    ensures var s := FinalSettings(catalog, input);
      && s.Keys <= {"$schema", "permissions", "sandbox", "enableAllProjectMcpServers"}
      && ("permissions" in s && s["permissions"].Obj? ==> s["permissions"].fields.Keys <= {"deny"})
  {
    FinalKeys(catalog, input);
  }

  /** The `$schema` key is present with the schema URL exactly when it is not switched off. */
  lemma SchemaStamp(catalog: seq<Threat>, input: GenerationInput)
    requires CatalogOk(catalog)
    ensures input.includeSchema != Some(false) ==>
      "$schema" in FinalSettings(catalog, input) && FinalSettings(catalog, input)["$schema"] == Str(SchemaUrl)
    ensures input.includeSchema == Some(false) ==> "$schema" !in FinalSettings(catalog, input)
  {
    FinalKeys(catalog, input);
    FinalIsStamped(catalog, input);
  }

  /**
   * The final deny list holds the deny entries of the applied
   * mitigations, in order of first occurrence, each once.
   */
  lemma FinalDeny(catalog: seq<Threat>, input: GenerationInput)
    requires CatalogOk(catalog)
    ensures DenyOf(FinalSettings(catalog, input)) ==
      Dedup(DenyConcat(catalog, input.enabledThreats, input.target))
    ensures NoDup(DenyOf(FinalSettings(catalog, input)))
    ensures Elements(DenyOf(FinalSettings(catalog, input))) ==
      Elements(DenyConcat(catalog, input.enabledThreats, input.target))
  {
    var s0 := RuleSettings(catalog, input.enabledThreats, input.target);
    RuleDeny(catalog, input.enabledThreats, input.target);
    PassesFrame(s0, input);
    var s3 := WithMcpServers(WithExcludedCommands(WithAllowedDomains(s0, input.allowedDomains),
      input.sandboxExcludedCommands), input);
    assert DenyOf(s3) == DenyOf(s0);
    DedupPermissionsEffect(s3);
    DedupIdempotent(DenyConcat(catalog, input.enabledThreats, input.target));
    FinalIsStamped(catalog, input);
  }

  /** Whatever the input, `permissions.allow`, `.ask` and `.deny` hold no duplicates. */
  lemma PermissionArraysDupFree(catalog: seq<Threat>, input: GenerationInput)
    ensures var s := FinalSettings(catalog, input);
      "permissions" in s && s["permissions"].Obj? ==>
        forall k :: k in PermissionKeys && k in s["permissions"].fields && s["permissions"].fields[k].Arr?
          ==> NoDup(s["permissions"].fields[k].items)
  {
    var s0 := RuleSettings(catalog, input.enabledThreats, input.target);
    var s3 := WithMcpServers(WithExcludedCommands(WithAllowedDomains(s0, input.allowedDomains),
      input.sandboxExcludedCommands), input);
    DedupPermissionsEffect(s3);
    FinalIsStamped(catalog, input);
  }

  // ---- The passes after the rule pass meet only the shapes they handle ----

  /** Inside a merged `permissions`, `deny` stays a list. */
  lemma MergeDenyList(bp: map<string, Value>, fp: map<string, Value>)
    requires "deny" in bp ==> bp["deny"].Arr?
    requires "deny" in fp ==> fp["deny"].Arr?
    ensures var r := MergeObjects(bp, fp, "permissions"); "deny" in r ==> r["deny"].Arr?
  {
    if "deny" in fp {
      assert FullPath("permissions", "deny") == "permissions.deny";
      MergeUnionsArrays(bp, fp, "permissions", "deny");
    }
  }

  /** Merging keeps `permissions` an object and `permissions.deny` a list. */
  lemma MergeFragmentShaped(b: map<string, Value>, f: map<string, Value>)
    requires FragmentShaped(b) && FragmentShaped(f)
    ensures FragmentShaped(MergeSettings(Obj(b), Obj(f)))
  {
    if "permissions" in f {
      MergeRecursesIntoObjects(b, f, "", "permissions");
      assert FullPath("", "permissions") == "permissions";
      var bv := Lookup(b, "permissions");
      MergeDenyList(if bv.Obj? then bv.fields else map[], f["permissions"].fields);
    }
  }

  /** Merging keeps `sandbox`, `sandbox.network` and `sandbox.excludedCommands` shaped. */
  lemma MergeSandboxShaped(b: map<string, Value>, f: map<string, Value>)
    requires SandboxShaped(b) && SandboxShaped(f)
    ensures SandboxShaped(MergeSettings(Obj(b), Obj(f)))
  {
    MergeLookup(b, f, "", "sandbox");
    var fsb := Lookup(f, "sandbox");
    if fsb.Obj? {
      assert FullPath("", "sandbox") == "sandbox";
      var bv := Lookup(b, "sandbox");
      var bs := if bv.Obj? then bv.fields else map[];
      var fs := fsb.fields;
      assert Lookup(MergeSettings(Obj(b), Obj(f)), "sandbox") == Obj(MergeObjects(bs, fs, "sandbox"));
      MergeLookup(bs, fs, "sandbox", "network");
      MergeLookup(bs, fs, "sandbox", "excludedCommands");
    }
  }

  lemma {:induction false} ThreatShaped(s: map<string, Value>, ms: seq<Mitigation>, n: nat, t: Target)
    requires n <= |ms|
    requires forall j :: 0 <= j < |ms| ==> MitigationOk(ms[j])
    requires FragmentShaped(s) && SandboxShaped(s)
    ensures FragmentShaped(MergeMitigations(s, ms, n, t)) && SandboxShaped(MergeMitigations(s, ms, n, t))
  {
    if n > 0 {
      ThreatShaped(s, ms, n - 1, t);
      var m := ms[n - 1];
      if IsValidFor(m, t) {
        MergeFragmentShaped(MergeMitigations(s, ms, n - 1, t), m.settingsFragment);
        MergeSandboxShaped(MergeMitigations(s, ms, n - 1, t), m.settingsFragment);
      }
    }
  }

  /** The rule pass over a catalog that meets CatalogOk produces shaped settings. */
  lemma {:induction false} RuleShaped(catalog: seq<Threat>, ids: seq<string>, t: Target)
    requires CatalogOk(catalog)
    ensures FragmentShaped(RuleSettings(catalog, ids, t)) && SandboxShaped(RuleSettings(catalog, ids, t))
    decreases |ids|
  {
    if ids != [] {
      var ms := MitigationsIn(catalog, ids[|ids| - 1]);
      RuleShaped(catalog, ids[..|ids| - 1], t);
      MitigationsInOk(catalog, ids[|ids| - 1]);
      ThreatShaped(RuleSettings(catalog, ids[..|ids| - 1], t), ms, |ms|, t);
    }
  }

  /** The domains pass keeps the sandbox shaped: it only ever writes an object `network`. */
  lemma DomainsKeepShape(s: map<string, Value>, domains: Option<seq<string>>)
    requires SandboxShaped(s)
    ensures SandboxShaped(WithAllowedDomains(s, domains))
  {
  }

  /**
   * From a catalog that meets CatalogOk, every customization pass and the
   * safety net meet only values they handle: `sandbox` and its `network`
   * are objects or unset, `sandbox.excludedCommands` is a list or unset,
   * `permissions` is an object whose only rule list is a `deny` list.
   */
  lemma PassInputsShaped(catalog: seq<Threat>, input: GenerationInput)
    requires CatalogOk(catalog)
    ensures var s0 := RuleSettings(catalog, input.enabledThreats, input.target);
      var s1 := WithAllowedDomains(s0, input.allowedDomains);
      var s3 := WithMcpServers(WithExcludedCommands(s1, input.sandboxExcludedCommands), input);
      && SandboxShaped(s0)
      && SandboxShaped(s1)
      && FragmentShaped(s3)
      && KeysWithin(s3, TargetKeys(input.target), TargetPermissionKeys(input.target))
  {
    var s0 := RuleSettings(catalog, input.enabledThreats, input.target);
    RuleShaped(catalog, input.enabledThreats, input.target);
    RuleKeysWithin(catalog, input.enabledThreats, input.target);
    DomainsKeepShape(s0, input.allowedDomains);
    PassesFrame(s0, input);
  }

  /** `sandbox.excludedCommands`, when it is a list, holds no duplicates. */
  predicate ExcludedDupFree(s: map<string, Value>) {
    ExcludedOf(s).Arr? ==> NoDup(ExcludedOf(s).items)
  }

  /** A merged entry is an object, or a list, exactly when the overlay value is. */
  lemma MergeEntryKind(baseVal: Value, overlayVal: Value, fullPath: string)
    ensures MergeEntry(baseVal, overlayVal, fullPath).Obj? <==> overlayVal.Obj?
    ensures MergeEntry(baseVal, overlayVal, fullPath).Arr? <==> overlayVal.Arr?
  {
  }

  /** Inside a merged `sandbox`, a list of excluded commands is a union, free of duplicates. */
  lemma MergeExcludedList(bs: map<string, Value>, fs: map<string, Value>)
    requires var be := Lookup(bs, "excludedCommands"); be.Arr? ==> NoDup(be.items)
    ensures var e := Lookup(MergeObjects(bs, fs, "sandbox"), "excludedCommands"); e.Arr? ==> NoDup(e.items)
  {
    var fe := Lookup(fs, "excludedCommands");
    if fe.Arr? {
      assert FullPath("sandbox", "excludedCommands") == "sandbox.excludedCommands";
      MergeUnionsArrays(bs, fs, "sandbox", "excludedCommands");
    } else {
      MergeLookup(bs, fs, "sandbox", "excludedCommands");
      MergeEntryKind(Lookup(bs, "excludedCommands"), fe, FullPath("sandbox", "excludedCommands"));
    }
  }

  /** Merging unions `sandbox.excludedCommands`, so it stays free of duplicates. */
  lemma MergeExcludedDupFree(b: map<string, Value>, f: map<string, Value>)
    requires ExcludedDupFree(b)
    ensures ExcludedDupFree(MergeSettings(Obj(b), Obj(f)))
  {
    var r := MergeObjects(b, f, "");
    var bv := Lookup(b, "sandbox");
    var fsb := Lookup(f, "sandbox");
    MergeLookup(b, f, "", "sandbox");
    assert FullPath("", "sandbox") == "sandbox";
    if fsb.Obj? {
      var bs := if bv.Obj? then bv.fields else map[];
      assert Lookup(r, "sandbox") == Obj(MergeObjects(bs, fsb.fields, "sandbox"));
      MergeExcludedList(bs, fsb.fields);
    } else {
      MergeEntryKind(bv, fsb, "sandbox");
    }
  }

  lemma {:induction false} ThreatExcludedDupFree(s: map<string, Value>, ms: seq<Mitigation>, n: nat, t: Target)
    requires n <= |ms|
    requires ExcludedDupFree(s)
    ensures ExcludedDupFree(MergeMitigations(s, ms, n, t))
  {
    if n > 0 {
      ThreatExcludedDupFree(s, ms, n - 1, t);
      if IsValidFor(ms[n - 1], t) {
        MergeExcludedDupFree(MergeMitigations(s, ms, n - 1, t), ms[n - 1].settingsFragment);
      }
    }
  }

  lemma {:induction false} RuleExcludedDupFree(catalog: seq<Threat>, ids: seq<string>, t: Target)
    ensures ExcludedDupFree(RuleSettings(catalog, ids, t))
    decreases |ids|
  {
    if ids != [] {
      var ms := MitigationsIn(catalog, ids[|ids| - 1]);
      RuleExcludedDupFree(catalog, ids[..|ids| - 1], t);
      ThreatExcludedDupFree(RuleSettings(catalog, ids[..|ids| - 1], t), ms, |ms|, t);
    }
  }

  /** Whatever the catalog and input, the generated `sandbox.excludedCommands` holds no duplicates. */
  lemma FinalExcludedDupFree(catalog: seq<Threat>, input: GenerationInput)
    ensures ExcludedOf(FinalSettings(catalog, input)).Arr? ==>
      NoDup(ExcludedOf(FinalSettings(catalog, input)).items)
  {
    var s0 := RuleSettings(catalog, input.enabledThreats, input.target);
    RuleExcludedDupFree(catalog, input.enabledThreats, input.target);
    FinalIsCustomized(catalog, input);
    ExcludedGate(s0, input);
    DomainsGate(s0, input);
  }

  // ---- The customizations reach the output, and only where the source says ----

  /** The passes after the rule pass, applied to the rule pass's settings `s0`. */
  function Customized(s0: map<string, Value>, input: GenerationInput): map<string, Value> {
    var s1 := WithAllowedDomains(s0, input.allowedDomains);
    var s2 := WithExcludedCommands(s1, input.sandboxExcludedCommands);
    WithSchema(DedupPermissions(WithMcpServers(s2, input)), input.includeSchema)
  }

  lemma FinalIsCustomized(catalog: seq<Threat>, input: GenerationInput)
    ensures FinalSettings(catalog, input) ==
      Customized(RuleSettings(catalog, input.enabledThreats, input.target), input)
  {
  }

  /** The passes after the excluded-commands pass leave `sandbox` alone. */
  lemma LaterPassesKeepSandbox(s2: map<string, Value>, input: GenerationInput)
    ensures Lookup(WithSchema(DedupPermissions(WithMcpServers(s2, input)), input.includeSchema), "sandbox")
      == Lookup(s2, "sandbox")
  {
    McpFrame(s2, input);
  }

  /**
   * Allowed domains land in `sandbox.network.allowedDomains`, replacing a
   * previous list, and creating `network` inside an existing sandbox; with
   * no sandbox they are dropped, and no `sandbox` key is ever created.
   */
  lemma DomainsGate(s0: map<string, Value>, input: GenerationInput)
    ensures var s := Customized(s0, input);
      var d := input.allowedDomains;
      var net0 := NetworkOf(s0);
      && ("sandbox" in s <==> "sandbox" in s0)
      && (Lookup(s, "sandbox").Obj? <==> Lookup(s0, "sandbox").Obj?)
      && (!NonEmpty(d) ==> NetworkOf(s) == net0)
      && (NonEmpty(d) && net0.Obj? ==>
            NetworkOf(s) == Obj(net0.fields["allowedDomains" := Arr(Strs(d.value))]))
      && (NonEmpty(d) && Lookup(s0, "sandbox").Obj? && !Truthy(net0) ==>
            NetworkOf(s) == Obj(map["allowedDomains" := Arr(Strs(d.value))]))
      && (Truthy(net0) && !net0.Obj? ==> NetworkOf(s) == net0)
  {
    var s1 := WithAllowedDomains(s0, input.allowedDomains);
    var s2 := WithExcludedCommands(s1, input.sandboxExcludedCommands);
    DomainsFrame(s0, input.allowedDomains);
    ExcludedFrame(s1, input.sandboxExcludedCommands);
    assert NetworkOf(s2) == NetworkOf(s1);
    LaterPassesKeepSandbox(s2, input);
  }

  /**
   * Excluded commands are appended to an existing object `sandbox`'s list,
   * keeping first occurrences; otherwise nothing changes.
   */
  lemma ExcludedGate(s0: map<string, Value>, input: GenerationInput)
    ensures var s := Customized(s0, input);
      var c := input.sandboxExcludedCommands;
      && (NonEmpty(c) && Lookup(s0, "sandbox").Obj? ==>
            ExcludedOf(s) == Arr(Dedup(ArrayOrEmpty(ExcludedOf(s0)) + Strs(c.value))))
      && (!NonEmpty(c) ==> ExcludedOf(s) == ExcludedOf(s0))
  {
    var s1 := WithAllowedDomains(s0, input.allowedDomains);
    var s2 := WithExcludedCommands(s1, input.sandboxExcludedCommands);
    DomainsFrame(s0, input.allowedDomains);
    assert ExcludedOf(s1) == ExcludedOf(s0);
    ExcludedPass(s1, input.sandboxExcludedCommands);
    LaterPassesKeepSandbox(s2, input);
    assert Customized(s0, input) ==
      WithSchema(DedupPermissions(WithMcpServers(s2, input)), input.includeSchema);
  }

  lemma ExcludedPass(s1: map<string, Value>, c: Option<seq<string>>)
    ensures var s2 := WithExcludedCommands(s1, c);
      && (NonEmpty(c) && Lookup(s1, "sandbox").Obj? ==>
            ExcludedOf(s2) == Arr(Dedup(ArrayOrEmpty(ExcludedOf(s1)) + Strs(c.value))))
      && (!NonEmpty(c) ==> s2 == s1)
  {
  }

  /**
   * The MCP server lists appear exactly when the target is managed and
   * the list is given and non-empty, as `{ serverName }` records. The
   * rule pass never sets them (`RuleKeysWithin`).
   */
  lemma McpGate(s0: map<string, Value>, input: GenerationInput)
    requires "allowedMcpServers" !in s0 && "deniedMcpServers" !in s0
    ensures var s := Customized(s0, input);
      var a := input.allowedMcpServerNames;
      var n := input.deniedMcpServerNames;
      && ("allowedMcpServers" in s <==> input.target == Managed && NonEmpty(a))
      && ("allowedMcpServers" in s ==> s["allowedMcpServers"] == Arr(ServerEntries(a.value)))
      && ("deniedMcpServers" in s <==> input.target == Managed && NonEmpty(n))
      && ("deniedMcpServers" in s ==> s["deniedMcpServers"] == Arr(ServerEntries(n.value)))
  {
    var s1 := WithAllowedDomains(s0, input.allowedDomains);
    var s2 := WithExcludedCommands(s1, input.sandboxExcludedCommands);
    DomainsFrame(s0, input.allowedDomains);
    ExcludedFrame(s1, input.sandboxExcludedCommands);
    DedupPermissionsEffect(WithMcpServers(s2, input));
  }

  /** The rule pass can never produce an MCP server list. */
  lemma McpKeysApart(t: Target)
    ensures "allowedMcpServers" !in RuleKeys(t) && "deniedMcpServers" !in RuleKeys(t)
  {
    assert McpKeys !! CatalogKeys;
  }

  /** The generator's MCP lists follow the input alone. */
  lemma McpGateFinal(catalog: seq<Threat>, input: GenerationInput)
    requires CatalogOk(catalog)
    ensures var s := FinalSettings(catalog, input);
      && ("allowedMcpServers" in s <==> input.target == Managed && NonEmpty(input.allowedMcpServerNames))
      && ("deniedMcpServers" in s <==> input.target == Managed && NonEmpty(input.deniedMcpServerNames))
  {
    var s0 := RuleSettings(catalog, input.enabledThreats, input.target);
    FinalIsCustomized(catalog, input);
    RuleKeysWithin(catalog, input.enabledThreats, input.target);
    McpKeysApart(input.target);
    McpGate(s0, input);
  }

  /**
   * With no threat selected and no MCP customization that applies, the
   * settings are just the schema stamp (or empty), and nothing is
   * applied or skipped.
   */
  lemma NothingSelected(catalog: seq<Threat>, input: GenerationInput)
    requires input.enabledThreats == []
    requires input.target != Managed ||
      (!NonEmpty(input.allowedMcpServerNames) && !NonEmpty(input.deniedMcpServerNames))
    ensures GenerateWith(catalog, input).settings ==
      if input.includeSchema != Some(false) then map["$schema" := Str(SchemaUrl)] else map[]
    ensures GenerateWith(catalog, input).appliedMitigations == []
    ensures GenerateWith(catalog, input).skippedMitigations == []
  {
    FinalIsStamped(catalog, input);
    assert Unstamped(catalog, input) == map[];
  }

  // ---- The managed target is the strictest ----

  lemma {:induction false} FragmentDeniesManaged(ms: seq<Mitigation>, n: nat, t: Target)
    requires n <= |ms|
    requires forall j :: 0 <= j < |ms| ==> WellFormedMitigation(ms[j])
    ensures forall x :: x in FragmentDenies(ms, n, t) ==> x in FragmentDenies(ms, n, Managed)
  {
    if n > 0 {
      FragmentDeniesManaged(ms, n - 1, t);
      ValidityOfOk(ms[n - 1]);
    }
  }

  lemma {:induction false} DenyConcatManaged(catalog: seq<Threat>, ids: seq<string>, t: Target)
    requires CatalogOk(catalog)
    ensures forall x :: x in DenyConcat(catalog, ids, t) ==> x in DenyConcat(catalog, ids, Managed)
    decreases |ids|
  {
    if ids != [] {
      var ms := MitigationsIn(catalog, ids[|ids| - 1]);
      DenyConcatManaged(catalog, ids[..|ids| - 1], t);
      MitigationsInOk(catalog, ids[|ids| - 1]);
      FragmentDeniesManaged(ms, |ms|, t);
    }
  }

  /** Deduplication keeps containment, and with it the order of lengths. */
  lemma DedupContained<T>(a: seq<T>, b: seq<T>)
    requires forall x :: x in a ==> x in b
    ensures forall x :: x in Dedup(a) ==> x in Dedup(b)
    ensures |Dedup(a)| <= |Dedup(b)|
  {
    assert forall x :: x in Dedup(a) ==> x in Elements(Dedup(b));
    NoDupLength(Dedup(a), Dedup(b));
  }

  /**
   * For the same selection, the managed target's deny list holds every
   * rule any other target's does, so it is at least as long.
   */
  lemma ManagedDenySuperset(catalog: seq<Threat>, input: GenerationInput)
    requires CatalogOk(catalog)
    ensures var a := DenyOf(FinalSettings(catalog, input));
      var b := DenyOf(FinalSettings(catalog, input.(target := Managed)));
      (forall x :: x in a ==> x in b) && |a| <= |b|
  {
    var ids := input.enabledThreats;
    FinalDeny(catalog, input);
    FinalDeny(catalog, input.(target := Managed));
    DenyConcatManaged(catalog, ids, input.target);
    DedupContained(DenyConcat(catalog, ids, input.target), DenyConcat(catalog, ids, Managed));
  }

  // ---- Where the settings go ----

  /** Each target has its own file; the platform matters only for the managed one. */
  lemma TargetPathsDistinct(isMac: bool)
    ensures forall t1: Target, t2: Target :: TargetPath(t1, isMac) == TargetPath(t2, isMac) ==> t1 == t2
    ensures forall t: Target :: t != Managed ==> TargetPath(t, true) == TargetPath(t, false)
    ensures TargetPath(Managed, true) != TargetPath(Managed, false)
  {
    assert |TargetPath(User, isMac)| == 23;
    assert |TargetPath(Project, isMac)| == 21;
    assert |TargetPath(Local, isMac)| == 27;
    assert |TargetPath(Managed, true)| == 61;
    assert |TargetPath(Managed, false)| == 38;
  }

  /** Each target has its own non-empty label and a description. */
  lemma TargetInfoDistinct()
    ensures forall t1: Target, t2: Target :: GetTargetInfo(t1).labelText == GetTargetInfo(t2).labelText ==> t1 == t2
    ensures forall t: Target :: GetTargetInfo(t).labelText != "" && GetTargetInfo(t).description != ""
  {
    assert |GetTargetInfo(User).labelText| == 4;
    assert |GetTargetInfo(Project).labelText| == 7;
    assert |GetTargetInfo(Local).labelText| == 5;
    assert |GetTargetInfo(Managed).labelText| == 7;
    assert GetTargetInfo(Project).labelText[0] != GetTargetInfo(Managed).labelText[0];
  }
}
