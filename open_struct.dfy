/**
 * The Open_Struct class: a recursive wrap engine (`structify`) and an
 * attribute store reached by indexed access (`offset*`) and by named access
 * (the magic methods `__isset`, `__get`, `__set`, `__unset`).
 */
module OpenStructs {
  import opened PhpValues

  // ---------------------------------------------------------------------------
  // The wrap engine
  // ---------------------------------------------------------------------------

  /**
   * `structify`: empty values come back as they are; a non-empty associative
   * array becomes a new struct holding each entry's value structified; a list
   * becomes a list of the same keys whose values are structified; anything
   * else (scalars, callables, existing structs) comes back as it is.
   *
   * The source fills the new struct with `array_reduce`, writing each entry
   * through the struct's own `offsetSet`, which structifies the value a second
   * time. Here the struct is built from the entries structified once;
   * FillMatchesStructify proves the two maps equal.
   */
  function Structify(v: Value): (r: Value)
    decreases v, 1
    ensures !v.Arr? ==> r == v
    ensures IsEmpty(v) ==> r == v
    ensures r.Struct? <==> v.Struct? || (IsAssociativeArray(v) && !IsEmpty(v))
    ensures r.Arr? ==> v.Arr? && Keys(r.entries) == Keys(v.entries)
  {
    if IsEmpty(v) then v
    else if IsAssociativeArray(v) then Struct(ToMap(StructifyEntries(v.entries)))
    else if IsList(v) then Arr(StructifyEntries(v.entries))
    else v
  }

  /** `array_map` of Structify over the values of an array, keys kept. */
  function StructifyEntries(es: seq<(Key, Value)>): (rs: seq<(Key, Value)>)
    decreases Arr(es), 0
    ensures |rs| == |es|
    ensures Keys(rs) == Keys(es)
  {
    var rs := seq(|es|, i requires 0 <= i < |es| => (es[i].0, Structify(es[i].1)));
    assert Keys(rs) == Keys(es);
    rs
  }

  /**
   * The shape Structify produces: no non-empty associative array anywhere
   * outside a struct, so every non-empty array is a list of such values.
   */
  predicate IsStructified(v: Value)
    decreases v
  {
    match v
    case Arr(es) => es == [] || (IsList(v) && forall i :: 0 <= i < |es| ==> IsStructified(es[i].1))
    case _ => true
  }

  /** Structify always produces the structified shape. */
  lemma {:induction false} StructifyIsStructified(v: Value)
    decreases v
    ensures IsStructified(Structify(v))
  {
    if !IsEmpty(v) && IsList(v) {
      var es := v.entries;
      var rs := StructifyEntries(es);
      forall i | 0 <= i < |rs|
        ensures IsStructified(rs[i].1)
      {
        StructifyIsStructified(es[i].1);
      }
      assert IsList(Arr(rs));
    }
  }

  /** Structify leaves a value unchanged exactly when it already has the structified shape. */
  lemma {:induction false} FixpointsAreStructified(v: Value)
    decreases v
    ensures Structify(v) == v <==> IsStructified(v)
  {
    if v.Arr? && !IsEmpty(v) && IsList(v) {
      var es := v.entries;
      var rs := StructifyEntries(es);
      if IsStructified(v) {
        forall i | 0 <= i < |es|
          ensures rs[i] == es[i]
        {
          FixpointsAreStructified(es[i].1);
        }
        assert rs == es;
      }
      if Structify(v) == v {
        assert rs == es;
        forall i | 0 <= i < |es|
          ensures IsStructified(es[i].1)
        {
          assert rs[i].1 == es[i].1;
          FixpointsAreStructified(es[i].1);
        }
      }
    }
  }

  /** Structifying twice is structifying once. */
  lemma StructifyIdempotent(v: Value)
    ensures Structify(Structify(v)) == Structify(v)
  {
    StructifyIsStructified(v);
    FixpointsAreStructified(Structify(v));
  }

  /** A list becomes the list of its structified elements, in the same order. */
  lemma StructifyList(v: Value)
    requires IsList(v)
    ensures Structify(v).Arr?
    ensures |Structify(v).entries| == |v.entries|
    ensures forall i :: 0 <= i < |v.entries| ==>
      Structify(v).entries[i] == (IntKey(i), Structify(v.entries[i].1))
  {
    ListIffIndexedKeys(v.entries);
  }

  /**
   * A non-empty associative array becomes a struct with the same keys, each
   * holding its structified value.
   */
  lemma StructifyAssociative(v: Value)
    requires IsAssociativeArray(v) && v.entries != []
    requires DistinctKeys(v.entries)
    ensures Structify(v).Struct?
    ensures Structify(v).attributes.Keys == KeySet(v.entries)
    ensures forall i :: 0 <= i < |v.entries| ==>
      Structify(v).attributes[v.entries[i].0] == Structify(v.entries[i].1)
  {
    var es := v.entries;
    var rs := StructifyEntries(es);
    SameKeys(rs, es);
    forall i | 0 <= i < |es|
      ensures ToMap(rs)[es[i].0] == Structify(es[i].1)
    {
      ToMapAt(rs, i);
    }
  }

  // ---------------------------------------------------------------------------
  // The attribute store, as functions on the key-to-value map
  // ---------------------------------------------------------------------------

  /** `isset($attributes[$key])`: the key is present with a non-null value. */
  predicate Isset(m: map<Key, Value>, key: Key)
  {
    key in m && m[key] != Null
  }

  /**
   * `offsetGet`: the value when `isset` holds, else null. Since only a null
   * value fails `isset` for a present key, this is the stored value, or null
   * for a missing key.
   */
  function Lookup(m: map<Key, Value>, key: Key): (r: Value)
    ensures r == if key in m then m[key] else Null
  {
    if Isset(m, key) then m[key] else Null
  }

  /** `offsetSet`: the structified value replaces whatever the key held. */
  function Store(m: map<Key, Value>, key: Key, value: Value): map<Key, Value>
  {
    m[key := Structify(value)]
  }

  /**
   * The `array_reduce` of `structify` as written: each entry's structified
   * value goes through the new struct's `offsetSet` (Store), which
   * structifies it again.
   */
  function Fill(es: seq<(Key, Value)>): map<Key, Value>
  {
    if es == [] then map[]
    else Store(Fill(es[..|es| - 1]), es[|es| - 1].0, Structify(es[|es| - 1].1))
  }

  /** The second structify inside `offsetSet` changes nothing: the reduce builds Structify's map. */
  lemma {:induction false} FillMatchesStructify(es: seq<(Key, Value)>)
    ensures Fill(es) == ToMap(StructifyEntries(es))
  {
    if es != [] {
      var n := |es| - 1;
      FillMatchesStructify(es[..n]);
      StructifyIdempotent(es[n].1);
      assert StructifyEntries(es)[..n] == StructifyEntries(es[..n]);
    }
  }

  /**
   * Writing to a store that is itself a nested Open_Struct: the outer
   * `offsetSet` structifies the value and hands it to the inner `offsetSet`,
   * which structifies it again. The result is the same as a single write.
   */
  lemma DelegatedStore(m: map<Key, Value>, key: Key, value: Value)
    ensures Store(m, key, Structify(value)) == Store(m, key, value)
    ensures Store(m, key, value)[key] == Structify(value)
  {
    StructifyIdempotent(value);
  }

  /** A write replaces only its own key: a read of it gives the structified value, other reads are unchanged. */
  lemma StoreThenLookup(m: map<Key, Value>, key: Key, value: Value, other: Key)
    ensures Lookup(Store(m, key, value), key) == Structify(value)
    ensures other != key ==> Lookup(Store(m, key, value), other) == Lookup(m, other)
    ensures other != key ==> Isset(Store(m, key, value), other) == Isset(m, other)
  {
  }

  /**
   * A scalar, callable or struct written is read back as it is, and exists
   * unless it is null: a null write leaves the key stored but reported absent.
   */
  lemma ScalarRoundTrip(m: map<Key, Value>, key: Key, value: Value)
    requires !value.Arr?
    ensures Lookup(Store(m, key, value), key) == value
    ensures Isset(Store(m, key, value), key) <==> value != Null
    ensures key in Store(m, key, value)
  {
  }

  /** A value is read back exactly as written precisely when it already has the structified shape. */
  lemma StoreRoundTrip(m: map<Key, Value>, key: Key, value: Value)
    ensures Lookup(Store(m, key, value), key) == value <==> IsStructified(value)
  {
    FixpointsAreStructified(value);
  }

  /** Reading a key after unsetting it gives null; unsetting touches no other key, and a missing key not at all. */
  lemma UnsetThenLookup(m: map<Key, Value>, key: Key, other: Key)
    ensures Lookup(m - {key}, key) == Null && !Isset(m - {key}, key)
    ensures other != key ==> Lookup(m - {key}, other) == Lookup(m, other)
    ensures key !in m ==> m - {key} == m
  {
  }

  /**
   * Writing a non-empty associative array makes the key hold a struct whose
   * own keys hold the structified entries, so `$s->foo->bar` reads them.
   */
  lemma NestedAccess(m: map<Key, Value>, key: Key, value: Value, j: nat)
    requires IsAssociativeArray(value) && value.entries != []
    requires DistinctKeys(value.entries)
    requires j < |value.entries|
    ensures Lookup(Store(m, key, value), key).Struct?
    ensures Lookup(Lookup(Store(m, key, value), key).attributes, value.entries[j].0)
      == Structify(value.entries[j].1)
  {
    StructifyAssociative(value);
  }

  // ---------------------------------------------------------------------------
  // Construction
  // ---------------------------------------------------------------------------

  /**
   * A seed the constructor can work with: an array, an existing struct, or
   * a falsy value that `?:` replaces with the empty array.
   */
  predicate IsSeed(seed: Value)
  {
    IsEmpty(seed) || seed.Arr? || seed.Struct?
  }

  /** What the constructor stores: `structify($attributes ?: [])`. */
  function Backing(seed: Value): (b: Value)
    requires IsSeed(seed)
    ensures b.Struct? || b.Arr?
    ensures IsEmpty(seed) ==> b == Arr([])
    ensures seed.Struct? ==> b == seed
  {
    Structify(if IsEmpty(seed) then Arr([]) else seed)
  }

  /**
   * The map that `$this->__attributes[$key]` sees: a PHP array directly, or
   * a nested Open_Struct through its ArrayAccess methods, which act on its
   * own map as the outer ones would (DelegatedStore covers the one place
   * they differ, the second structify on a write).
   */
  function View(b: Value): map<Key, Value>
    requires b.Struct? || b.Arr?
  {
    if b.Struct? then b.attributes else ToMap(b.entries)
  }

  /**
   * Construction seeds the store with every key of the seed array holding its
   * structified value; an empty or absent seed gives an empty store, and an
   * existing struct is used as it is, its own store read through ArrayAccess.
   */
  lemma SeedView(seed: Value)
    requires IsSeed(seed)
    requires seed.Arr? ==> DistinctKeys(seed.entries)
    ensures IsEmpty(seed) ==> View(Backing(seed)) == map[]
    ensures seed.Struct? ==> View(Backing(seed)) == seed.attributes
    ensures seed.Arr? ==> View(Backing(seed)).Keys == KeySet(seed.entries)
    ensures seed.Arr? ==> forall i :: 0 <= i < |seed.entries| ==>
      View(Backing(seed))[seed.entries[i].0] == Structify(seed.entries[i].1)
  {
    if seed.Arr? && !IsEmpty(seed) {
      if IsAssociativeArray(seed) {
        StructifyAssociative(seed);
      } else {
        var es := seed.entries;
        var rs := StructifyEntries(es);
        StructifyList(seed);
        SameKeys(rs, es);
        forall i | 0 <= i < |es|
          ensures ToMap(rs)[es[i].0] == Structify(es[i].1)
        {
          ToMapAt(rs, i);
        }
      }
    }
  }

  // ---------------------------------------------------------------------------
  // The class
  // ---------------------------------------------------------------------------

  class OpenStruct {
    /** `__attributes`, as the key-to-value map it presents. */
    var attributes: map<Key, Value>

    /** `new Open_Struct($attributes)` for an array seed, a struct seed or none. */
    constructor (seed: Value)
      requires IsSeed(seed)
      ensures attributes == View(Backing(seed))
      ensures IsEmpty(seed) ==> attributes == map[]
      ensures seed.Struct? ==> attributes == seed.attributes
      ensures seed.Arr? && DistinctKeys(seed.entries) ==>
        attributes.Keys == KeySet(seed.entries) &&
        forall i :: 0 <= i < |seed.entries| ==>
          attributes[seed.entries[i].0] == Structify(seed.entries[i].1)
    {
      attributes := View(Backing(seed));
      if !seed.Arr? || DistinctKeys(seed.entries) {
        SeedView(seed);
      }
    }

    /** `offsetExists`: true exactly when the key is stored with a non-null value. */
    method OffsetExists(key: Key) returns (present: bool)
      ensures present == Isset(attributes, key)
      ensures present <==> key in attributes && attributes[key] != Null
    {
      present := Isset(attributes, key);
    }

    /** `offsetGet`: the stored value, or null when the key is missing. */
    method OffsetGet(key: Key) returns (value: Value)
      ensures value == Lookup(attributes, key)
      ensures key in attributes ==> value == attributes[key]
      ensures key !in attributes ==> value == Null
    {
      var present := OffsetExists(key);
      value := if present then attributes[key] else Null;
    }

    /** `offsetSet`: the key now holds the structified value; no other key changes. */
    method OffsetSet(key: Key, value: Value)
      modifies this
      ensures attributes == Store(old(attributes), key, value)
      ensures attributes == old(attributes)[key := Structify(value)]
    {
      attributes := Store(attributes, key, value);
    }

    /** `offsetUnset`: the key is gone; no other key changes, and a missing key is no error. */
    method OffsetUnset(key: Key)
      modifies this
      ensures attributes == old(attributes) - {key}
    {
      attributes := attributes - {key};
    }

    /** `__isset`: named access, forwarded to OffsetExists. */
    method PropertyIsset(key: Key) returns (present: bool)
      ensures present == Isset(attributes, key)
      ensures present <==> key in attributes && attributes[key] != Null
    {
      present := OffsetExists(key);
    }

    /** `__get`: named access, forwarded to OffsetGet. */
    method PropertyGet(key: Key) returns (value: Value)
      ensures value == Lookup(attributes, key)
      ensures key in attributes ==> value == attributes[key]
      ensures key !in attributes ==> value == Null
    {
      value := OffsetGet(key);
    }

    /** `__set`: named access, forwarded to OffsetSet. */
    method PropertySet(key: Key, value: Value)
      modifies this
      ensures attributes == Store(old(attributes), key, value)
      ensures attributes == old(attributes)[key := Structify(value)]
    {
      OffsetSet(key, value);
    }

    /** `__unset`: named access, forwarded to OffsetUnset. */
    method PropertyUnset(key: Key)
      modifies this
      ensures attributes == old(attributes) - {key}
    {
      OffsetUnset(key);
    }
  }
}
