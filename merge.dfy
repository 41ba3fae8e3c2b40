/**
 * The path-keyed deep merge of src/core/merge.ts: an overlay settings
 * object is folded onto a base object, key by key, and the dotted path of
 * each key from the document root decides how arrays combine.
 */
module Merge {
  import opened Json

  /** Array paths that are concatenated and deduplicated. */
  const ArrayUnionPaths: set<string> :=
    {"permissions.deny", "permissions.allow", "permissions.ask", "sandbox.excludedCommands"}

  /** Array paths whose overlay value replaces the base value outright (whitelists). */
  const ArrayReplacePaths: set<string> :=
    {"sandbox.network.allowedDomains", "sandbox.network.allowUnixSockets",
     "strictKnownMarketplaces", "allowedMcpServers", "deniedMcpServers"}

  /** `path ? `${path}.${key}` : key` */
  function FullPath(path: string, key: string): string {
    if path == "" then key else path + "." + key
  }

  /** The keys of an object whose value is not `undefined`. */
  function DefinedKeys(m: map<string, Value>): set<string> {
    set k | k in m && !m[k].Undefined?
  }

  /**
   * What deepMergeInternal stores for one key whose overlay value is not
   * `undefined`, given the base value (`Undefined` when the base lacks the key).
   */
  function MergeEntry(baseVal: Value, overlayVal: Value, fullPath: string): Value
    decreases overlayVal, 1
  {
    match overlayVal
    case Arr(xs) =>
      if fullPath in ArrayReplacePaths then Arr(xs)
      else if fullPath in ArrayUnionPaths then Arr(Dedup(ArrayOrEmpty(baseVal) + xs))
      // Unclassified array paths fall back to the union as well.
      else Arr(Dedup(ArrayOrEmpty(baseVal) + xs))
    case Obj(child) =>
      Obj(MergeObjects(if IsPlainObject(baseVal) then baseVal.fields else map[], child, fullPath))
    case _ => overlayVal
  }

  /**
   * deepMergeInternal(target, source, path): a copy of the base in which
   * every overlay key that is not `undefined` is replaced by its merged value.
   */
  function MergeObjects(base: map<string, Value>, overlay: map<string, Value>, path: string)
    : (r: map<string, Value>)
    ensures r.Keys == base.Keys + DefinedKeys(overlay)
    ensures forall k :: k in base && k !in DefinedKeys(overlay) ==> r[k] == base[k]
    decreases Obj(overlay), 0
  {
    map k | k in base.Keys + DefinedKeys(overlay) ::
      if k in overlay && !overlay[k].Undefined?
      then MergeEntry(Lookup(base, k), overlay[k], FullPath(path, k))
      else base[k]
  }

  /** The decimal digits of a natural number, as `String(n)` prints them. */
  function DecimalString(n: nat): string
    decreases n
  {
    var digit := ['0' + (n % 10) as char];
    if n < 10 then digit else DecimalString(n / 10) + digit
  }

  /** The own enumerable properties of an array or string: index to element. */
  function IndexedEntries(xs: seq<Value>): map<string, Value>
    decreases |xs|
  {
    if xs == [] then map[]
    else IndexedEntries(xs[..|xs| - 1])[DecimalString(|xs| - 1) := xs[|xs| - 1]]
  }

  /**
   * The object a value is read as by `{ ...v }` and `Object.keys(v)`: an
   * object is itself; an array or a string contributes its indices; `null`,
   * `undefined`, booleans and numbers contribute nothing.
   */
  function Spread(v: Value): map<string, Value> {
    match v
    case Obj(m) => m
    case Arr(xs) => IndexedEntries(xs)
    case Str(s) => IndexedEntries(seq(|s|, i requires 0 <= i < |s| => Str([s[i]])))
    case _ => map[]
  }

  /** mergeSettings(existing, generated) */
  function MergeSettings(existing: Value, generated: Value): (r: map<string, Value>)
    ensures r.Keys == Spread(existing).Keys + DefinedKeys(Spread(generated))
    ensures forall k :: k in Spread(existing) && k !in DefinedKeys(Spread(generated)) ==> r[k] == Spread(existing)[k]
  {
    MergeObjects(Spread(existing), Spread(generated), "")
  }

  /**
   * The loop of deepMergeInternal: start from a copy of the base and assign
   * each overlay key in turn. The order of `Object.keys` is left open; each
   * key is assigned once and reads only its own base value, so every order
   * gives the same object.
   */
  method DeepMergeInternal(target: map<string, Value>, source: map<string, Value>, path: string)
    returns (result: map<string, Value>)
    ensures result == MergeObjects(target, source, path)
    decreases Obj(source), 0
  {
    result := target;
    var pending := source.Keys;
    while pending != {}
      invariant pending <= source.Keys
      invariant forall k :: k in result <==>
        k in target || (k in source && k !in pending && !source[k].Undefined?)
      invariant forall k :: k in result ==>
        result[k] == (if k in source && k !in pending && !source[k].Undefined?
                      then MergeEntry(Lookup(target, k), source[k], FullPath(path, k))
                      else target[k])
      decreases pending
    {
      var key :| key in pending;
      pending := pending - {key};
      var fullPath := FullPath(path, key);
      var sourceVal := source[key];
      var targetVal := Lookup(result, key);
      assert targetVal == Lookup(target, key);
      if sourceVal.Undefined? {
        continue;
      }
      var merged := MergeValue(targetVal, sourceVal, fullPath);
      result := result[key := merged];
    }
  }

  /** The value the loop above assigns to one key whose overlay value is not `undefined`. */
  method MergeValue(targetVal: Value, sourceVal: Value, fullPath: string) returns (merged: Value)
    ensures merged == MergeEntry(targetVal, sourceVal, fullPath)
    decreases sourceVal, 1
  {
    match sourceVal {
      case Arr(xs) =>
        if fullPath in ArrayReplacePaths {
          merged := Arr(xs);
        } else if fullPath in ArrayUnionPaths {
          merged := Arr(Dedup(ArrayOrEmpty(targetVal) + xs));
        } else {
          merged := Arr(Dedup(ArrayOrEmpty(targetVal) + xs));
        }
      case Obj(child) =>
        var fields := DeepMergeInternal(
          if IsPlainObject(targetVal) then targetVal.fields else map[], child, fullPath);
        merged := Obj(fields);
      case _ =>
        merged := sourceVal;
    }
  }

  // ---- Properties of the merge ----

  /** Merging an empty overlay returns the base unchanged. */
  lemma MergeEmptyOverlay(base: map<string, Value>, path: string)
    ensures MergeObjects(base, map[], path) == base
  {
    assert DefinedKeys(map[]) == {};
  }

  /** An overlay key set to `undefined` leaves the base value (or its absence) as it was. */
  lemma MergeSkipsUndefined(base: map<string, Value>, overlay: map<string, Value>, path: string, key: string)
    requires key in overlay && overlay[key].Undefined?
    ensures key in MergeObjects(base, overlay, path) <==> key in base
    ensures key in base ==> MergeObjects(base, overlay, path)[key] == base[key]
  {
  }

  /** At a replace path the result array is exactly the overlay array. */
  lemma MergeReplacesWhitelist(base: map<string, Value>, overlay: map<string, Value>, path: string, key: string)
    requires key in overlay && overlay[key].Arr?
    requires FullPath(path, key) in ArrayReplacePaths
    ensures MergeObjects(base, overlay, path)[key] == overlay[key]
  {
  }

  /**
   * At a union path, and at any array path on neither list, the result is
   * the base array (empty when the base value is not an array) followed by
   * the overlay array, keeping first occurrences: no duplicates, every
   * input element present, the deduplicated base elements first.
   */
  lemma MergeUnionsArrays(base: map<string, Value>, overlay: map<string, Value>, path: string, key: string)
    requires key in overlay && overlay[key].Arr?
    requires FullPath(path, key) !in ArrayReplacePaths
    ensures var existing := ArrayOrEmpty(Lookup(base, key));
      var r := MergeObjects(base, overlay, path)[key];
      && r == Arr(Dedup(existing + overlay[key].items))
      && NoDup(r.items)
      && Elements(r.items) == Elements(existing) + Elements(overlay[key].items)
      && |Dedup(existing)| <= |r.items|
      && r.items[..|Dedup(existing)|] == Dedup(existing)
  {
    var existing := ArrayOrEmpty(Lookup(base, key));
    var xs := overlay[key].items;
    DedupPrefix(existing, xs);
    assert Elements(existing + xs) == Elements(existing) + Elements(xs);
  }

  /**
   * A plain-object overlay value is merged recursively, against the base
   * value when that is a plain object and against `{}` otherwise.
   */
  lemma MergeRecursesIntoObjects(base: map<string, Value>, overlay: map<string, Value>, path: string, key: string)
    requires key in overlay && overlay[key].Obj?
    ensures var b := Lookup(base, key);
      MergeObjects(base, overlay, path)[key] ==
        Obj(MergeObjects(if b.Obj? then b.fields else map[], overlay[key].fields, FullPath(path, key)))
  {
  }

  /** A scalar overlay value, `null` included, replaces the base value. */
  lemma MergeOverwritesScalars(base: map<string, Value>, overlay: map<string, Value>, path: string, key: string)
    requires key in overlay
    requires overlay[key].Null? || overlay[key].Bool? || overlay[key].Num? || overlay[key].Str?
    ensures MergeObjects(base, overlay, path)[key] == overlay[key]
  {
  }

  /** Reading one key of a merge: the merged entry where the overlay defines it, the base value elsewhere. */
  lemma MergeLookup(base: map<string, Value>, overlay: map<string, Value>, path: string, key: string)
    ensures Lookup(MergeObjects(base, overlay, path), key) ==
      if key in overlay && !overlay[key].Undefined?
      then MergeEntry(Lookup(base, key), overlay[key], FullPath(path, key))
      else Lookup(base, key)
  {
  }

  /** The imperative merge and mergeSettings agree on objects. */
  lemma MergeSettingsOfObjects(existing: map<string, Value>, generated: map<string, Value>)
    ensures MergeSettings(Obj(existing), Obj(generated)) == MergeObjects(existing, generated, "")
  {
  }

  /**
   * Every array the merge would union, at any depth, is free of duplicates.
   * Arrays at replace paths may hold anything.
   */
  predicate UnionArraysDupFree(m: map<string, Value>, path: string)
    decreases Obj(m)
  {
    forall k :: k in m ==>
      match m[k]
      case Arr(xs) => FullPath(path, k) in ArrayReplacePaths || NoDup(xs)
      case Obj(c) => UnionArraysDupFree(c, FullPath(path, k))
      case _ => true
  }

  /**
   * Idempotence: merging a document with itself gives it back, provided
   * the arrays that are unioned hold no duplicates.
   */
  lemma {:induction false} MergeIdempotent(m: map<string, Value>, path: string)
    requires UnionArraysDupFree(m, path)
    ensures MergeObjects(m, m, path) == m
    decreases Obj(m), 1
  {
    var r := MergeObjects(m, m, path);
    forall k | k in m
      ensures r[k] == m[k]
    {
      MergeIdempotentAt(m, path, k);
    }
  }

  lemma {:induction false} MergeIdempotentAt(m: map<string, Value>, path: string, k: string)
    requires UnionArraysDupFree(m, path)
    requires k in m
    ensures MergeObjects(m, m, path)[k] == m[k]
    decreases Obj(m), 0
  {
    var fp := FullPath(path, k);
    var v := m[k];
    if v.Arr? && fp !in ArrayReplacePaths {
      var xs := v.items;
      assert NoDup(xs);
      DedupFromSeen(xs, xs);
      FirstOccurrencesAllSeen(Elements(xs), xs);
      DedupOfNoDup(xs);
    } else if v.Obj? {
      assert UnionArraysDupFree(v.fields, fp);
      MergeIdempotent(v.fields, fp);
    }
  }
}
