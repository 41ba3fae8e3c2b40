/**
 * The predefined security profiles of src/core/profiles.ts: named sets of
 * threat ids, and the lookup by profile id. "custom" names no profile.
 */
module Profiles {
  import opened Json
  import opened Threats

  datatype ProfileId = Lax | Moderate | Strict | Custom

  datatype Profile = Profile(id: ProfileId, name: string, description: string, enabledThreats: seq<string>)

  const LaxProfile := Profile(
    Lax,
    "Lax",
    "Minimal restrictions. Blocks only permission bypass and privilege escalation.",
    ["permission-bypass", "privilege-escalation"])

  const ModerateProfile := Profile(
    Moderate,
    "Moderate",
    "Balanced security. Blocks data exfiltration, secrets access, privilege escalation, permission bypass, and destructive operations.",
    ["data-exfiltration", "secrets-theft", "privilege-escalation", "permission-bypass", "destructive-ops"])

  const StrictProfile := Profile(
    Strict,
    "Strict",
    "Maximum security. Enables all threat mitigations including sandbox enforcement and MCP lockdown.",
    ["data-exfiltration", "secrets-theft", "malicious-mcp", "privilege-escalation",
     "permission-bypass", "config-override", "destructive-ops", "sandbox-enforcement"])

  /** PROFILES, in declaration order. */
  const AllProfiles: seq<Profile> := [LaxProfile, ModerateProfile, StrictProfile]

  /** `profiles.find((p) => p.id === id)` */
  function FindProfile(profiles: seq<Profile>, id: ProfileId): (r: Option<Profile>)
    ensures r.None? <==> forall i :: 0 <= i < |profiles| ==> profiles[i].id != id
    ensures r.Some? ==> r.value in profiles && r.value.id == id
    ensures r.Some? ==> exists i :: (0 <= i < |profiles| && profiles[i] == r.value
                                     && forall j :: 0 <= j < i ==> profiles[j].id != id)
  {
    if profiles == [] then None
    else if profiles[0].id == id then Some(profiles[0])
    else
      var r := FindProfile(profiles[1..], id);
      assert r.Some? ==> exists i :: (0 <= i < |profiles[1..]| && profiles[1..][i] == r.value
                                      && forall j :: 0 <= j < i ==> profiles[1..][j].id != id);
      r
  }

  /** getProfile(id): the predefined profile with that id; none for "custom". */
  function GetProfile(id: ProfileId): (r: Option<Profile>)
    ensures id == Custom <==> r.None?
    ensures r.Some? ==> r.value in AllProfiles && r.value.id == id
  {
    if id == Custom then None
    else
      assert AllProfiles[0].id == Lax && AllProfiles[1].id == Moderate && AllProfiles[2].id == Strict;
      FindProfile(AllProfiles, id)
  }

  // ---- Integrity of the table ----

  /** Each predefined profile is what its own id looks up. */
  lemma GetProfileOfEntry(i: nat)
    requires i < |AllProfiles|
    ensures GetProfile(AllProfiles[i].id) == Some(AllProfiles[i])
  {
    assert AllProfiles[0].id == Lax && AllProfiles[1].id == Moderate && AllProfiles[2].id == Strict;
  }

  /** The profiles hold 2, 5 and 8 distinct threat ids. */
  lemma ProfileSizes()
    ensures |LaxProfile.enabledThreats| == 2 && NoDup(LaxProfile.enabledThreats)
    ensures |ModerateProfile.enabledThreats| == 5 && NoDup(ModerateProfile.enabledThreats)
    ensures |StrictProfile.enabledThreats| == 8 && NoDup(StrictProfile.enabledThreats)
  {
    var s := StrictProfile.enabledThreats;
    assert s[0][0] == 'd' && s[1][0] == 's' && s[2][0] == 'm' && s[3][0] == 'p';
    assert s[4][0] == 'p' && s[5][0] == 'c' && s[6][0] == 'd' && s[7][0] == 's';
    assert s[3][1] != s[4][1] && s[0][1] != s[6][1] && s[1][1] != s[7][1];
    var m := ModerateProfile.enabledThreats;
    assert m[0][0] == 'd' && m[1][0] == 's' && m[2][0] == 'p' && m[3][0] == 'p' && m[4][0] == 'd';
    assert m[2][1] != m[3][1] && m[0][1] != m[4][1];
    assert LaxProfile.enabledThreats[0][1] != LaxProfile.enabledThreats[1][1];
  }

  /** The strict profile lists the catalog's threats, in catalog order. */
  lemma StrictIsCatalog()
    ensures |StrictProfile.enabledThreats| == |Catalog|
    ensures forall i :: 0 <= i < |Catalog| ==> StrictProfile.enabledThreats[i] == Catalog[i].id
  {
  }

  /** The strict set contains the moderate and the lax sets. */
  lemma StrictContainsOthers()
    ensures Elements(LaxProfile.enabledThreats) <= Elements(StrictProfile.enabledThreats)
    ensures Elements(ModerateProfile.enabledThreats) <= Elements(StrictProfile.enabledThreats)
  {
    var s := StrictProfile.enabledThreats;
    assert s[4] in s && s[3] in s && s[0] in s && s[1] in s && s[6] in s;
  }

  /** Every threat id a profile names is in the catalog. */
  lemma ProfileThreatsKnown()
    ensures forall i, k :: 0 <= i < |AllProfiles| && 0 <= k < |AllProfiles[i].enabledThreats| ==>
      GetThreat(AllProfiles[i].enabledThreats[k]).Some?
  {
    StrictIsCatalog();
    StrictContainsOthers();
    forall i, k | 0 <= i < |AllProfiles| && 0 <= k < |AllProfiles[i].enabledThreats|
      ensures GetThreat(AllProfiles[i].enabledThreats[k]).Some?
    {
      var id := AllProfiles[i].enabledThreats[k];
      assert id in Elements(StrictProfile.enabledThreats);
      var j :| 0 <= j < |StrictProfile.enabledThreats| && StrictProfile.enabledThreats[j] == id;
      assert Catalog[j].id == id;
    }
  }

  /** No two profiles have the same threat set. */
  lemma ProfileSetsDistinct()
    ensures forall i, j :: 0 <= i < j < |AllProfiles| ==>
      Elements(AllProfiles[i].enabledThreats) != Elements(AllProfiles[j].enabledThreats)
  {
    ProfileSizes();
    NoDupCard(LaxProfile.enabledThreats);
    NoDupCard(ModerateProfile.enabledThreats);
    NoDupCard(StrictProfile.enabledThreats);
  }

  /** The strict profile covers every threat of the catalog. */
  lemma StrictCoversCatalog()
    ensures forall i :: 0 <= i < |Catalog| ==> Catalog[i].id in StrictProfile.enabledThreats
  {
    StrictIsCatalog();
  }
}
