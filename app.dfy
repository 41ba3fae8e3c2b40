/**
 * The selection state of the web app (src/web/app.ts, logic only): the
 * target, the profile, the set of enabled threats and the customization
 * lists, the profile detection that keeps "custom" derived from the
 * enabled set, and how the generated settings are merged into a pasted
 * existing configuration.
 */
module App {
  import opened Json
  import opened Merge
  import opened Threats
  import opened Profiles
  import opened Engine

  // ---- Profile detection ----

  /**
   * detectProfile's test for one profile: `profileSet.size === enabled.size`
   * and every id of the profile is enabled. `enabled` is a set, so its size
   * is its length.
   */
  predicate SameSelection(profileThreats: seq<string>, enabled: seq<string>) {
    var profileSet := Dedup(profileThreats);
    |profileSet| == |enabled| && forall k :: 0 <= k < |profileSet| ==> profileSet[k] in enabled
  }

  /** The id of the first profile whose set is the enabled set, or "custom". */
  function DetectIn(profiles: seq<Profile>, enabled: seq<string>): ProfileId {
    if profiles == [] then Custom
    else if SameSelection(profiles[0].enabledThreats, enabled) then profiles[0].id
    else DetectIn(profiles[1..], enabled)
  }

  function DetectedProfile(enabled: seq<string>): ProfileId {
    DetectIn(AllProfiles, enabled)
  }

  lemma SubsetSameCard<T>(x: set<T>, y: set<T>)
    requires x <= y && |x| == |y|
    ensures x == y
  {
    assert y == x + (y - x);
    assert |y - x| == 0;
  }

  /** For a duplicate-free enabled list, the size-and-containment test is set equality. */
  lemma SameSelectionIsSetEquality(profileThreats: seq<string>, enabled: seq<string>)
    requires NoDup(enabled)
    ensures SameSelection(profileThreats, enabled) <==> Elements(profileThreats) == Elements(enabled)
  {
    var d := Dedup(profileThreats);
    NoDupCard(d);
    NoDupCard(enabled);
    if SameSelection(profileThreats, enabled) {
      assert Elements(d) <= Elements(enabled);
      SubsetSameCard(Elements(d), Elements(enabled));
    }
    if Elements(profileThreats) == Elements(enabled) {
      assert forall k :: 0 <= k < |d| ==> d[k] in Elements(enabled);
    }
  }

  /**
   * The detected profile is the profile whose threat set equals the
   * enabled set, and "custom" when there is none.
   */
  lemma DetectedProfileMeaning(enabled: seq<string>)
    requires NoDup(enabled)
    ensures forall i :: 0 <= i < |AllProfiles| ==>
      (DetectedProfile(enabled) == AllProfiles[i].id <==>
       Elements(AllProfiles[i].enabledThreats) == Elements(enabled))
    ensures DetectedProfile(enabled) == Custom <==>
      forall i :: 0 <= i < |AllProfiles| ==> Elements(AllProfiles[i].enabledThreats) != Elements(enabled)
  {
    var e := Elements(enabled);
    SameSelectionIsSetEquality(LaxProfile.enabledThreats, enabled);
    SameSelectionIsSetEquality(ModerateProfile.enabledThreats, enabled);
    SameSelectionIsSetEquality(StrictProfile.enabledThreats, enabled);
    ProfileSetsDistinct();
    DetectedUnfold(enabled);
  }

  /** detectProfile tries lax, then moderate, then strict. */
  lemma DetectedUnfold(enabled: seq<string>)
    ensures AllProfiles[0] == LaxProfile && AllProfiles[1] == ModerateProfile && AllProfiles[2] == StrictProfile
    ensures DetectedProfile(enabled) ==
      if SameSelection(LaxProfile.enabledThreats, enabled) then Lax
      else if SameSelection(ModerateProfile.enabledThreats, enabled) then Moderate
      else if SameSelection(StrictProfile.enabledThreats, enabled) then Strict
      else Custom
  {
    var rest1 := AllProfiles[1..];
    var rest2 := rest1[1..];
    assert rest1 == [ModerateProfile, StrictProfile];
    assert rest2 == [StrictProfile];
    assert rest2[1..] == [];
    assert DetectIn(rest2, enabled) ==
      if SameSelection(StrictProfile.enabledThreats, enabled) then Strict else Custom;
    assert DetectIn(rest1, enabled) ==
      if SameSelection(ModerateProfile.enabledThreats, enabled) then Moderate else DetectIn(rest2, enabled);
  }

  /** Selecting a predefined profile's threats is detected as that profile. */
  lemma ProfileDetectsItself(p: ProfileId)
    requires p != Custom
    ensures NoDup(GetProfile(p).value.enabledThreats)
    ensures DetectedProfile(GetProfile(p).value.enabledThreats) == p
  {
    ProfileSizes();
    var q := GetProfile(p).value;
    var i :| 0 <= i < |AllProfiles| && AllProfiles[i] == q;
    DetectedProfileMeaning(q.enabledThreats);
  }

  // ---- Toggling a threat ----

  /** `Set.delete`: the list without `id`, the others in order. */
  function Remove(s: seq<string>, id: string): (r: seq<string>)
    ensures forall x :: x in r <==> x in s && x != id
    ensures NoDup(s) ==> NoDup(r)
    ensures id !in s ==> r == s
  {
    if s == [] then []
    else
      var init := s[..|s| - 1];
      var last := s[|s| - 1];
      assert s == init + [last];
      assert NoDup(s) ==> NoDup(init) && last !in init;
      if last == id then Remove(init, id)
      else Remove(init, id) + [last]
  }

  /**
   * On a set, `Set.delete` keeps the order of the others: the list loses
   * exactly the one position holding the deleted id.
   */
  lemma {:induction false} RemoveKeepsOrder(s: seq<string>, k: nat)
    requires NoDup(s) && k < |s|
    ensures Remove(s, s[k]) == s[..k] + s[k + 1..]
    decreases |s|
  {
    var id := s[k];
    var init := s[..|s| - 1];
    var last := s[|s| - 1];
    assert s == init + [last];
    assert NoDup(init) && last !in init;
    if k == |s| - 1 {
      assert s[..k] + s[k + 1..] == init;
    } else {
      assert init[k] == id && last != id;
      RemoveKeepsOrder(init, k);
      assert s[..k] == init[..k];
      assert s[k + 1..] == init[k + 1..] + [last];
      assert Remove(s, id) == Remove(init, id) + [last];
    }
  }

  /** The enabled list after toggling `id`: deleted if present, appended otherwise. */
  function Toggled(s: seq<string>, id: string): seq<string> {
    if id in s then Remove(s, id) else s + [id]
  }

  /** Toggling flips the membership of `id` and of nothing else, and keeps a set a set. */
  lemma ToggleFlips(s: seq<string>, id: string)
    ensures id in Toggled(s, id) <==> id !in s
    ensures forall x :: x != id ==> (x in Toggled(s, id) <==> x in s)
    ensures NoDup(s) ==> NoDup(Toggled(s, id))
  {
  }

  /**
   * Toggling twice restores the set; when `id` was off, it restores the
   * list itself (turning an enabled threat off and on again moves it to
   * the end of the insertion order).
   */
  lemma ToggleTwice(s: seq<string>, id: string)
    ensures Elements(Toggled(Toggled(s, id), id)) == Elements(s)
    ensures id !in s ==> Toggled(Toggled(s, id), id) == s
  {
    ToggleFlips(s, id);
    ToggleFlips(Toggled(s, id), id);
    if id !in s {
      assert (s + [id])[..|s + [id]| - 1] == s;
    }
  }

  // ---- The customization lists and the existing configuration ----

  /** `xs.length ? xs : undefined` */
  function OrAbsent(xs: seq<string>): (r: Option<seq<string>>)
    ensures r.None? <==> |xs| == 0
    ensures r.Some? ==> r.value == xs
  {
    if |xs| > 0 then Some(xs) else None
  }

  /** The characters `String.prototype.trim` removes: white space and line terminators. */
  predicate IsJsWhitespace(c: char) {
    || c == '\t' || c == '\n' || c == '\U{000B}' || c == '\U{000C}' || c == '\r' || c == ' '
    || c == '\U{00A0}' || c == '\U{1680}' || ('\U{2000}' <= c <= '\U{200A}')
    || c == '\U{2028}' || c == '\U{2029}' || c == '\U{202F}' || c == '\U{205F}'
    || c == '\U{3000}' || c == '\U{FEFF}'
  }

  function TrimStart(s: string): string
    decreases |s|
  {
    if s != [] && IsJsWhitespace(s[0]) then TrimStart(s[1..]) else s
  }

  function TrimEnd(s: string): string
    decreases |s|
  {
    if s != [] && IsJsWhitespace(s[|s| - 1]) then TrimEnd(s[..|s| - 1]) else s
  }

  /** `s.trim()` */
  function Trim(s: string): string {
    TrimEnd(TrimStart(s))
  }

  /** Every character is white space. */
  predicate IsBlank(s: string) {
    forall i :: 0 <= i < |s| ==> IsJsWhitespace(s[i])
  }

  lemma {:induction false} TrimStartEmpty(s: string)
    ensures TrimStart(s) == [] <==> IsBlank(s)
    decreases |s|
  {
    if s != [] && IsJsWhitespace(s[0]) {
      TrimStartEmpty(s[1..]);
      assert forall i :: 1 <= i < |s| ==> s[i] == s[1..][i - 1];
    }
  }

  lemma {:induction false} TrimEndEmpty(s: string)
    ensures TrimEnd(s) == [] <==> IsBlank(s)
    decreases |s|
  {
    if s != [] && IsJsWhitespace(s[|s| - 1]) {
      TrimEndEmpty(s[..|s| - 1]);
    }
  }

  lemma {:induction false} TrimStartHead(s: string)
    ensures TrimStart(s) != [] ==> !IsJsWhitespace(TrimStart(s)[0])
    decreases |s|
  {
    if s != [] && IsJsWhitespace(s[0]) {
      TrimStartHead(s[1..]);
    }
  }

  /** `s.trim()` is empty exactly when `s` is all white space. */
  lemma TrimEmptyIffBlank(s: string)
    ensures Trim(s) == "" <==> IsBlank(s)
  {
    TrimStartEmpty(s);
    TrimEndEmpty(TrimStart(s));
    TrimStartHead(s);
  }

  // ---- The state ----

  class AppState {
    var target: Target
    var profile: ProfileId
    /** The enabled threat set, in insertion order (a JavaScript `Set` iterates so). */
    var enabledThreats: seq<string>
    var allowedDomains: seq<string>
    var sandboxExcludedCommands: seq<string>
    var allowedMcpServerNames: seq<string>
    var deniedMcpServerNames: seq<string>
    var mergeEnabled: bool
    var existingConfig: string

    /**
     * The enabled threats form a set, and the stored profile is "custom"
     * or the profile that set is detected as.
     */
    ghost predicate Valid()
      reads this
    {
      NoDup(enabledThreats) && (profile == Custom || profile == DetectedProfile(enabledThreats))
    }

    /** The initial state: user target, the moderate profile and its threats, nothing customized. */
    constructor ()
      ensures Valid()
      ensures target == User && profile == Moderate
      ensures enabledThreats == ModerateProfile.enabledThreats
      ensures allowedDomains == [] && sandboxExcludedCommands == []
      ensures allowedMcpServerNames == [] && deniedMcpServerNames == []
      ensures !mergeEnabled && existingConfig == ""
    {
      var moderate := FindProfile(AllProfiles, Moderate);
      assert AllProfiles[1].id == Moderate;
      target := User;
      profile := Moderate;
      enabledThreats := Dedup(moderate.value.enabledThreats);
      allowedDomains := [];
      sandboxExcludedCommands := [];
      allowedMcpServerNames := [];
      deniedMcpServerNames := [];
      mergeEnabled := false;
      existingConfig := "";
      ProfileDetectsItself(Moderate);
      DedupOfNoDup(ModerateProfile.enabledThreats);
    }

    /**
     * setProfile(p): the profile becomes `p`; a predefined profile also
     * replaces the enabled set by its threats, "custom" keeps it.
     */
    method SetProfile(p: ProfileId)
      requires Valid()
      modifies this
      ensures Valid()
      ensures profile == p
      ensures p != Custom ==> enabledThreats == GetProfile(p).value.enabledThreats
      ensures p == Custom ==> enabledThreats == old(enabledThreats)
      ensures target == old(target) && mergeEnabled == old(mergeEnabled) && existingConfig == old(existingConfig)
      ensures allowedDomains == old(allowedDomains) && sandboxExcludedCommands == old(sandboxExcludedCommands)
      ensures allowedMcpServerNames == old(allowedMcpServerNames) && deniedMcpServerNames == old(deniedMcpServerNames)
    {
      profile := p;
      if p != Custom {
        var def := FindProfile(AllProfiles, p);
        assert def == GetProfile(p);
        if def.Some? {
          ProfileDetectsItself(p);
          DedupOfNoDup(def.value.enabledThreats);
          enabledThreats := Dedup(def.value.enabledThreats);
        }
      }
    }

    /**
     * toggleThreat(id): flip `id` in the enabled set, then store the
     * profile the new set is detected as.
     */
    method ToggleThreat(id: string)
      requires Valid()
      modifies this
      ensures Valid()
      ensures enabledThreats == Toggled(old(enabledThreats), id)
      ensures profile == DetectedProfile(enabledThreats)
      ensures target == old(target) && mergeEnabled == old(mergeEnabled) && existingConfig == old(existingConfig)
      ensures allowedDomains == old(allowedDomains) && sandboxExcludedCommands == old(sandboxExcludedCommands)
      ensures allowedMcpServerNames == old(allowedMcpServerNames) && deniedMcpServerNames == old(deniedMcpServerNames)
    {
      ToggleFlips(enabledThreats, id);
      if id in enabledThreats {
        enabledThreats := Remove(enabledThreats, id);
      } else {
        enabledThreats := enabledThreats + [id];
      }
      profile := DetectProfile();
    }

    /** detectProfile(): the first profile whose set is the enabled set, else "custom". */
    method DetectProfile() returns (r: ProfileId)
      requires NoDup(enabledThreats)
      ensures r == DetectedProfile(enabledThreats)
      ensures forall i :: 0 <= i < |AllProfiles| ==>
        (r == AllProfiles[i].id <==> Elements(AllProfiles[i].enabledThreats) == Elements(enabledThreats))
    {
      DetectedProfileMeaning(enabledThreats);
      var i := 0;
      while i < |AllProfiles|
        invariant 0 <= i <= |AllProfiles|
        invariant DetectIn(AllProfiles[i..], enabledThreats) == DetectedProfile(enabledThreats)
      {
        var candidate := AllProfiles[i];
        var profileSet := Dedup(candidate.enabledThreats);
        if |profileSet| == |enabledThreats| && forall k :: 0 <= k < |profileSet| ==> profileSet[k] in enabledThreats {
          return candidate.id;
        }
        assert AllProfiles[i..][1..] == AllProfiles[i + 1..];
        i := i + 1;
      }
      return Custom;
    }

    /** The generator input built from the state: empty lists are passed as absent. */
    function CurrentInput(): (input: GenerationInput)
      reads this
      ensures input.enabledThreats == enabledThreats && input.target == target
      ensures NonEmpty(input.allowedDomains) <==> |allowedDomains| > 0
      ensures NonEmpty(input.sandboxExcludedCommands) <==> |sandboxExcludedCommands| > 0
      ensures NonEmpty(input.allowedMcpServerNames) <==> |allowedMcpServerNames| > 0
      ensures NonEmpty(input.deniedMcpServerNames) <==> |deniedMcpServerNames| > 0
      ensures input.includeSchema == None
      ensures input.allowedDomains == OrAbsent(allowedDomains)
      ensures input.sandboxExcludedCommands == OrAbsent(sandboxExcludedCommands)
      ensures input.allowedMcpServerNames == OrAbsent(allowedMcpServerNames)
      ensures input.deniedMcpServerNames == OrAbsent(deniedMcpServerNames)
    {
      GenerationInput(
        enabledThreats, target,
        OrAbsent(allowedDomains), OrAbsent(sandboxExcludedCommands),
        OrAbsent(allowedMcpServerNames), OrAbsent(deniedMcpServerNames),
        None)
    }

    /**
     * generateCurrentSettings(): generate from the state; when merging is
     * on and the existing text is not blank and parses, the final
     * settings are the generated ones merged onto it, and otherwise the
     * generated ones. `parse` stands for `JSON.parse`, `None` for a throw.
     */
    method GenerateCurrentSettings(parse: string -> Option<Value>)
      returns (result: GenerationResult, finalSettings: map<string, Value>)
      ensures result == GenerateWith(Catalog, CurrentInput())
      ensures !mergeEnabled || IsBlank(existingConfig) || parse(existingConfig).None? ==>
        finalSettings == result.settings
      ensures mergeEnabled && !IsBlank(existingConfig) && parse(existingConfig).Some? ==>
        finalSettings == MergeSettings(parse(existingConfig).value, Obj(result.settings))
    {
      result := Generate(CurrentInput());
      finalSettings := result.settings;
      TrimEmptyIffBlank(existingConfig);
      if mergeEnabled && Trim(existingConfig) != "" {
        var parsed := parse(existingConfig);
        if parsed.Some? {
          finalSettings := MergeSettings(parsed.value, Obj(result.settings));
        }
      }
    }
  }

  /**
   * Merging into an existing configuration keeps every key it had and
   * adds every generated key.
   */
  lemma MergedKeepsBoth(existing: Value, generated: map<string, Value>)
    ensures Spread(existing).Keys <= MergeSettings(existing, Obj(generated)).Keys
    ensures DefinedKeys(generated) <= MergeSettings(existing, Obj(generated)).Keys
  {
  }
}
