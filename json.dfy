/**
 * JavaScript values as the policy engine sees them, and the
 * "deduplicate by first occurrence" operation (`[...new Set(xs)]`)
 * that both the merge engine and the generator rely on.
 */
module Json {

  datatype Option<+T> = None | Some(value: T)

  /**
   * A JSON-compatible JavaScript value. `Undefined` stands for a property
   * explicitly set to `undefined`; a key missing from an object reads as
   * `Undefined` too (see `Lookup`). Numbers in the settings are integers.
   */
  datatype Value =
    | Undefined
    | Null
    | Bool(b: bool)
    | Num(n: int)
    | Str(s: string)
    | Arr(items: seq<Value>)
    | Obj(fields: map<string, Value>)

  /** isPlainObject: neither `null`, `undefined`, a primitive nor an array. */
  function IsPlainObject(v: Value): (b: bool)
    ensures b <==> !(v.Null? || v.Undefined? || v.Bool? || v.Num? || v.Str? || v.Arr?)
  {
    v.Obj?
  }

  /** JavaScript truthiness: `undefined`, `null`, `false`, `0` and `""` are falsy. */
  predicate Truthy(v: Value) {
    match v
    case Undefined => false
    case Null => false
    case Bool(b) => b
    case Num(n) => n != 0
    case Str(s) => s != ""
    case _ => true
  }

  /** Property read `obj[key]`: a missing key yields `undefined`. */
  function Lookup(m: map<string, Value>, key: string): Value {
    if key in m then m[key] else Undefined
  }

  /** `Array.isArray(v) ? v : []` */
  function ArrayOrEmpty(v: Value): seq<Value> {
    if v.Arr? then v.items else []
  }

  /** A list of strings as JSON string values. */
  function Strs(xs: seq<string>): (r: seq<Value>)
    ensures |r| == |xs|
    ensures forall i :: 0 <= i < |xs| ==> r[i] == Str(xs[i])
  {
    if xs == [] then [] else [Str(xs[0])] + Strs(xs[1..])
  }

  /** The elements of a sequence, as a set. */
  function Elements<T>(s: seq<T>): set<T> {
    set x | x in s
  }

  predicate NoDup<T(==)>(s: seq<T>) {
    forall i, j :: 0 <= i < j < |s| ==> s[i] != s[j]
  }

  /**
   * `[...new Set(s)]`: insertion into a set keeps the first occurrence of
   * each element, in the order of first occurrence. Defined by peeling off
   * the last element, which is the order in which a Set sees them.
   */
  function Dedup<T(==)>(s: seq<T>): (r: seq<T>)
    ensures NoDup(r)
    ensures Elements(r) == Elements(s)
    ensures |r| <= |s|
  {
    if s == [] then []
    else
      var d := Dedup(s[..|s| - 1]);
      var x := s[|s| - 1];
      assert Elements(s) == Elements(s[..|s| - 1]) + {x} by {
        assert s == s[..|s| - 1] + [x];
      }
      if x in d then d else d + [x]
  }

  /** Deduplicating a list that has no duplicates gives it back unchanged. */
  lemma {:induction false} DedupOfNoDup<T>(s: seq<T>)
    requires NoDup(s)
    ensures Dedup(s) == s
  {
    if s != [] {
      var init := s[..|s| - 1];
      assert NoDup(init);
      DedupOfNoDup(init);
      assert s[|s| - 1] !in init;
      assert init + [s[|s| - 1]] == s;
    }
  }

  /** Deduplication is idempotent. */
  lemma DedupIdempotent<T>(s: seq<T>)
    ensures Dedup(Dedup(s)) == Dedup(s)
  {
    DedupOfNoDup(Dedup(s));
  }

  /**
   * Deduplicating a concatenation may first deduplicate the left part:
   * what survives from `b` depends only on which elements `a` holds.
   */
  lemma {:induction false} DedupAppend<T>(a: seq<T>, b: seq<T>)
    ensures Dedup(a + b) == Dedup(Dedup(a) + b)
  {
    if b == [] {
      assert a + b == a;
      assert Dedup(a) + b == Dedup(a);
      DedupIdempotent(a);
    } else {
      var init := b[..|b| - 1];
      DedupAppend(a, init);
      assert (a + b)[..|a + b| - 1] == a + init;
      assert (Dedup(a) + b)[..|Dedup(a) + b| - 1] == Dedup(a) + init;
    }
  }

  /**
   * The elements of `a` come first: `Dedup(a)` is a prefix of
   * `Dedup(a + b)`, and what follows comes from `b` and is not in `a`.
   */
  lemma {:induction false} DedupPrefix<T>(a: seq<T>, b: seq<T>)
    ensures |Dedup(a)| <= |Dedup(a + b)|
    ensures Dedup(a + b)[..|Dedup(a)|] == Dedup(a)
    ensures forall i :: |Dedup(a)| <= i < |Dedup(a + b)| ==>
      Dedup(a + b)[i] in b && Dedup(a + b)[i] !in a
  {
    if b == [] {
      assert a + b == a;
    } else {
      var init := b[..|b| - 1];
      DedupPrefix(a, init);
      assert (a + b)[..|a + b| - 1] == a + init;
      assert Elements(Dedup(a + init)) == Elements(a + init);
      assert forall x :: x in a ==> x in Elements(a + init);
    }
  }

  /**
   * An independent, left-to-right reading of "keep the first occurrence":
   * walk the list, remembering what has been seen.
   */
  function FirstOccurrences<T(==)>(seen: set<T>, s: seq<T>): seq<T>
    decreases |s|
  {
    if s == [] then []
    else if s[0] in seen then FirstOccurrences(seen, s[1..])
    else [s[0]] + FirstOccurrences(seen + {s[0]}, s[1..])
  }

  /** The Set-based deduplication agrees with the left-to-right walk. */
  lemma {:induction false} DedupIsFirstOccurrences<T>(s: seq<T>)
    ensures Dedup(s) == FirstOccurrences({}, s)
  {
    DedupFromSeen(s, []);
    assert [] + s == s;
    assert Elements<T>([]) == {};
  }

  lemma {:induction false} DedupFromSeen<T>(s: seq<T>, prefix: seq<T>)
    ensures Dedup(prefix + s) == Dedup(prefix) + FirstOccurrences(Elements(prefix), s)
    decreases |s|
  {
    if s == [] {
      assert prefix + s == prefix;
    } else {
      var x := s[0];
      assert prefix + s == (prefix + [x]) + s[1..];
      DedupFromSeen(s[1..], prefix + [x]);
      assert (prefix + [x])[..|prefix + [x]| - 1] == prefix;
      if x in prefix {
        assert Elements(prefix + [x]) == Elements(prefix);
      } else {
        assert Elements(prefix + [x]) == Elements(prefix) + {x};
        assert x !in Dedup(prefix);
      }
    }
  }

  /** Nothing survives when every element has been seen already. */
  lemma {:induction false} FirstOccurrencesAllSeen<T>(seen: set<T>, s: seq<T>)
    requires forall x :: x in s ==> x in seen
    ensures FirstOccurrences(seen, s) == []
    decreases |s|
  {
    if s != [] {
      FirstOccurrencesAllSeen(seen, s[1..]);
    }
  }

  /** A duplicate-free list is no longer than any list holding its elements. */
  lemma {:induction false} NoDupLength<T>(a: seq<T>, b: seq<T>)
    requires NoDup(a) && NoDup(b)
    requires forall x :: x in a ==> x in b
    ensures |a| <= |b|
  {
    NoDupCard(a);
    NoDupCard(b);
    assert Elements(a) <= Elements(b);
    SubsetCard(Elements(a), Elements(b));
  }

  lemma SubsetCard<T>(x: set<T>, y: set<T>)
    requires x <= y
    ensures |x| <= |y|
  {
    assert y == x + (y - x);
  }

  lemma {:induction false} NoDupCard<T>(s: seq<T>)
    requires NoDup(s)
    ensures |Elements(s)| == |s|
  {
    if s != [] {
      var init := s[..|s| - 1];
      assert NoDup(init);
      NoDupCard(init);
      assert s == init + [s[|s| - 1]];
      assert Elements(s) == Elements(init) + {s[|s| - 1]};
      assert s[|s| - 1] !in Elements(init);
    }
  }
}
