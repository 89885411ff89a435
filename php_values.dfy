/**
 * The PHP values an Open_Struct stores and wraps: scalars, callables, arrays
 * (ordered key/value pairs) and Open_Struct instances, together with the
 * predicates the class uses to sort them (`empty`, `is_list`,
 * `is_associative_array`).
 */
module PhpValues {

  /** An array key as PHP holds it after normalisation: an integer or a string. */
  datatype Key = IntKey(n: int) | StrKey(name: string)

  /**
   * A PHP value. `Callable` is an opaque token for a closure: nothing here
   * invokes it. `Arr` is a PHP array, its entries in iteration order.
   * `Struct` is an Open_Struct instance, seen through its attribute store.
   */
  datatype Value =
    | Null
    | Bool(b: bool)
    | Int(i: int)
    | Str(s: string)
    | Callable(id: nat)
    | Arr(entries: seq<(Key, Value)>)
    | Struct(attributes: map<Key, Value>)

  /** PHP's `empty()`: null, false, 0, "", "0" and the empty array. An object is never empty. */
  predicate IsEmpty(v: Value)
  {
    match v
    case Null => true
    case Bool(b) => !b
    case Int(i) => i == 0
    case Str(s) => s == "" || s == "0"
    case Arr(es) => es == []
    case _ => false
  }

  /** `array_keys`: the keys of an array in iteration order. */
  function Keys(es: seq<(Key, Value)>): (ks: seq<Key>)
    ensures |ks| == |es|
    ensures forall i :: 0 <= i < |es| ==> ks[i] == es[i].0
  {
    seq(|es|, i requires 0 <= i < |es| => es[i].0)
  }

  /**
   * `range(0, n - 1)` as integer keys. PHP counts downwards when the start
   * exceeds the end, so for n == 0 this is [0, -1], not the empty list.
   */
  function ListKeys(n: nat): (ks: seq<Key>)
    ensures n > 0 ==> |ks| == n && forall i :: 0 <= i < n ==> ks[i] == IntKey(i)
    ensures n == 0 ==> ks == [IntKey(0), IntKey(-1)]
  {
    if n == 0 then [IntKey(0), IntKey(-1)]
    else seq(n, i requires 0 <= i < n => IntKey(i))
  }

  /** `is_list`: an array whose keys are exactly 0, 1, ..., n - 1 in this order. */
  predicate IsList(v: Value)
  {
    v.Arr? && Keys(v.entries) == ListKeys(|v.entries|)
  }

  /** `is_associative_array`: an array whose keys are anything else. */
  predicate IsAssociativeArray(v: Value)
  {
    v.Arr? && Keys(v.entries) != ListKeys(|v.entries|)
  }

  /** A PHP array never holds the same key twice. */
  predicate DistinctKeys(es: seq<(Key, Value)>)
  {
    forall i, j :: 0 <= i < j < |es| ==> es[i].0 != es[j].0
  }

  /** The set of keys of an array. */
  function KeySet(es: seq<(Key, Value)>): set<Key>
  {
    set i | 0 <= i < |es| :: es[i].0
  }

  /**
   * The array as a key-to-value map: the entries written one after another,
   * a later write to a key replacing an earlier one.
   */
  function ToMap(es: seq<(Key, Value)>): (m: map<Key, Value>)
    ensures m.Keys == KeySet(es)
  {
    if es == [] then map[]
    else
      var m := ToMap(es[..|es| - 1]);
      assert KeySet(es) == KeySet(es[..|es| - 1]) + {es[|es| - 1].0};
      m[es[|es| - 1].0 := es[|es| - 1].1]
  }

  /** The value an array holds under a key, for arrays whose keys are distinct. */
  lemma {:induction false} ToMapAt(es: seq<(Key, Value)>, i: nat)
    requires DistinctKeys(es)
    requires i < |es|
    ensures ToMap(es)[es[i].0] == es[i].1
  {
    if i < |es| - 1 {
      ToMapAt(es[..|es| - 1], i);
    }
  }

  /** Two arrays with the same keys in the same order have the same key set, and one has distinct keys iff the other does. */
  lemma SameKeys(a: seq<(Key, Value)>, b: seq<(Key, Value)>)
    requires Keys(a) == Keys(b)
    ensures KeySet(a) == KeySet(b)
    ensures DistinctKeys(a) <==> DistinctKeys(b)
  {
    assert |a| == |Keys(a)| == |b|;
    forall k | k in KeySet(a) ensures k in KeySet(b) {
      var i :| 0 <= i < |a| && a[i].0 == k;
      assert Keys(a)[i] == b[i].0;
    }
    forall k | k in KeySet(b) ensures k in KeySet(a) {
      var i :| 0 <= i < |b| && b[i].0 == k;
      assert Keys(a)[i] == b[i].0;
    }
  }

  /** The two predicates split the arrays between them, and nothing else satisfies either. */
  lemma ListOrAssociative(v: Value)
    ensures !(IsList(v) && IsAssociativeArray(v))
    ensures v.Arr? <==> IsList(v) || IsAssociativeArray(v)
  {
  }

  /** An array is a list exactly when it is non-empty and its i-th key is the integer i. */
  lemma ListIffIndexedKeys(es: seq<(Key, Value)>)
    ensures IsList(Arr(es)) <==> es != [] && forall i :: 0 <= i < |es| ==> es[i].0 == IntKey(i)
  {
    if es != [] && forall i :: 0 <= i < |es| ==> es[i].0 == IntKey(i) {
      assert Keys(es) == ListKeys(|es|);
    }
  }

  /** Because `range(0, -1)` is [0, -1], the empty array counts as associative. */
  lemma EmptyArrayIsAssociative()
    ensures IsAssociativeArray(Arr([]))
    ensures !IsList(Arr([]))
  {
  }

  /** A single-element array `[x]` is a list, never an associative array. */
  lemma SingletonIsList(x: Value)
    ensures IsList(Arr([(IntKey(0), x)]))
    ensures !IsAssociativeArray(Arr([(IntKey(0), x)]))
  {
    assert Keys([(IntKey(0), x)]) == ListKeys(1);
  }
}
