# Open_Struct in Dafny

A model of `Open_Struct`, a PHP class inspired by Ruby's `ostruct`. It is a
schema-less attribute container. Callers assign arbitrary attributes at
runtime, either by name (`$s->foo`) or by index (`$s['foo']`). Values are
wrapped on write by a recursive transform, `structify`:

- an empty value is kept as it is;
- a non-empty associative array becomes a new `Open_Struct`;
- a list becomes a list of structified elements;
- anything else is kept as it is.

The project has three files:

- `php_values.dfy` (module `PhpValues`) has the PHP values the class handles:
  null, booleans, integers, strings, opaque callables, arrays (ordered
  key/value entries) and `Open_Struct` instances. It also defines PHP's
  `empty()`, and the class's `is_list` and `is_associative_array`, including
  the way PHP's `range(0, -1)` gives `[0, -1]`.
- `open_struct.dfy` (module `OpenStructs`) has `Structify` and the store
  operations as functions on the key-to-value map. It also has the class
  `OpenStruct`, whose `attributes` field the `Offset*` methods update in
  place. The `Property*` methods model the magic methods and forward to them.
- `scenarios.dfy` replays the unit tests of `test/open_struct_test.php`,
  one client method per test, relying only on the specifications above.
  The nested-unset test is not replayed (see the aliasing line under
  "Left out").

The constructor stores `structify($attributes ?: [])` in `__attributes`.
For an associative seed, that is itself a nested `Open_Struct`, and the
outer object's `offset*` calls reach it through `ArrayAccess`. An existing
struct given as the seed is kept as it is and reached the same way. The model
keeps one map: `View(Backing(seed))`. `SeedView` proves that this map holds
each seed key with its structified value. `DelegatedStore` proves that the
extra `structify` a delegated write performs changes nothing.

In the source, `structify` fills the new struct with `array_reduce`, and
each write goes through the struct's own `offsetSet`, so each value is
structified twice. `Structify` builds the struct from values structified
once, and `FillMatchesStructify` proves that the reduce as written (`Fill`)
builds the same map.

Existence is PHP's `isset`, not key membership. A key stored with `null`
therefore reports as absent, although it is still stored and a read returns
`null`. This class has no change tracking, no dirty set and no lazy
resolution of callables: a stored callable is read back unresolved.

## Model

| member | source | states |
|---|---|---|
| `PhpValues.ListOrAssociative` | lib/open_struct/open_struct.php:148-163 | `is_list` and `is_associative_array` never both hold; between them they cover exactly the arrays |
| `PhpValues.ListIffIndexedKeys` | lib/open_struct/open_struct.php:161-163 | an array is a list iff it is non-empty and its i-th key is the integer i |
| `PhpValues.EmptyArrayIsAssociative` | lib/open_struct/open_struct.php:148-150 | because `range(0, -1)` is `[0, -1]`, the empty array passes `is_associative_array` and fails `is_list` |
| `PhpValues.SingletonIsList` | lib/open_struct/open_struct.php:161-163 | a one-element array `[x]` is a list and not an associative array |
| `OpenStructs.Structify` | lib/open_struct/open_struct.php:174-184 | non-arrays (scalars, callables, structs) and empty values come back unchanged; the result is a struct iff the input is one or is a non-empty associative array; an array result has the input's keys |
| `OpenStructs.StructifyList` | lib/open_struct/open_struct.php:179-180 | a list becomes a list of the same length and order whose i-th entry is key i with the i-th value structified |
| `OpenStructs.StructifyAssociative` | lib/open_struct/open_struct.php:177-178 | a non-empty associative array becomes a struct with exactly its keys, each holding its value structified |
| `OpenStructs.StructifyIsStructified` | lib/open_struct/open_struct.php:174-184 | every result of structify has the structified shape: no non-empty associative array outside a struct |
| `OpenStructs.FixpointsAreStructified` | lib/open_struct/open_struct.php:174-184 | structify leaves a value unchanged iff it has the structified shape |
| `OpenStructs.StructifyIdempotent` | lib/open_struct/open_struct.php:174-184 | structifying twice gives the same as structifying once |
| `OpenStructs.FillMatchesStructify` | lib/open_struct/open_struct.php:178 | the `array_reduce`, whose writes through `offsetSet` structify each value a second time, builds the same map as structify's single pass |
| `OpenStructs.Lookup` | lib/open_struct/open_struct.php:108-110 | the isset-gated read gives the stored value for any present key, null included, and null for a missing key |
| `OpenStructs.DelegatedStore` | lib/open_struct/open_struct.php:122-124 | a write through a nested struct store, which structifies twice, equals a direct write |
| `OpenStructs.StoreThenLookup` | lib/open_struct/open_struct.php:122-124 | after a write, the key reads as the structified value and every other key reads and exists as before |
| `OpenStructs.ScalarRoundTrip` | lib/open_struct/open_struct.php:108-124 | a written scalar, callable or struct reads back unchanged; it exists iff it is not null, though a null write keeps the key stored |
| `OpenStructs.StoreRoundTrip` | lib/open_struct/open_struct.php:108-124 | a written value reads back exactly as written iff it already has the structified shape, for example a list of scalars |
| `OpenStructs.UnsetThenLookup` | lib/open_struct/open_struct.php:135-137 | after an unset the key reads null and does not exist; other keys read as before; unsetting a missing key changes nothing |
| `OpenStructs.NestedAccess` | test/open_struct_test.php:23-29 | after writing a non-empty associative array, the key holds a struct whose keys read as the structified entries (`$s->foo->bar`) |
| `OpenStructs.Backing` | lib/open_struct/open_struct.php:30 | `structify($attributes ?: [])` of an array, struct or empty seed is a struct or an array: the empty array for an empty seed, the seed itself for a struct |
| `OpenStructs.SeedView` | lib/open_struct/open_struct.php:29-31 | the store seen through `__attributes` holds exactly the seed's keys, each with its value structified; it is empty for an empty seed and is the seed's own store for a struct seed |
| `OpenStructs.OpenStruct.constructor` | lib/open_struct/open_struct.php:29-31 | the store is the seed's view: empty for an empty seed, the seed's store for a struct seed, else each seed key holding its structified value |
| `OpenStructs.OpenStruct.OffsetExists` | lib/open_struct/open_struct.php:95-97 | the result is `Isset`: true iff the key is stored with a non-null value |
| `OpenStructs.OpenStruct.OffsetGet` | lib/open_struct/open_struct.php:108-110 | the result is `Lookup`: the stored value for a present key, null for a missing key |
| `OpenStructs.OpenStruct.OffsetSet` | lib/open_struct/open_struct.php:122-124 | the new store is `Store` of the old: the key holds the structified value; every other key is unchanged |
| `OpenStructs.OpenStruct.OffsetUnset` | lib/open_struct/open_struct.php:135-137 | the key is removed; every other key is unchanged; a missing key is no error |
| `OpenStructs.OpenStruct.PropertyIsset` | lib/open_struct/open_struct.php:42-44 | named existence check: the same result as `OffsetExists` |
| `OpenStructs.OpenStruct.PropertyGet` | lib/open_struct/open_struct.php:55-57 | named read: the same result as `OffsetGet` |
| `OpenStructs.OpenStruct.PropertySet` | lib/open_struct/open_struct.php:69-71 | named write: the same new store as `OffsetSet` |
| `OpenStructs.OpenStruct.PropertyUnset` | lib/open_struct/open_struct.php:82-84 | named removal: the same new store as `OffsetUnset` |

## Left out

- Object identity and aliasing: nested structs are values here, not shared objects. Mutating a nested struct through a handle returned by a read (`unset($s->foo['bar'])`, test/open_struct_test.php:77-83) is not modelled.
- Invoking callables: a callable is an opaque token, stored and returned as it is.
- PHP's runtime machinery: `ArrayAccess` and magic-method dispatch are plain method calls. Key coercion (`"1"` to `1`) is not modelled; keys arrive already normalised. Named access therefore takes the same `Key` as indexed access, although in PHP a property name is a string that the array write then coerces.
- Floats: there is no float value, so PHP's `empty()` on `0.0` is not modelled. Such scalars pass through `structify` unchanged either way.
- Construction from a truthy scalar or callable seed (`new Open_Struct(5)`): the source stores it as `__attributes`, and later writes to that scalar break, so the constructor requires an array, a struct or an empty seed.
- OpenStructs.OpenStruct.constructor: a struct seed is copied into the new store. In the source the new object forwards to the seed object through `ArrayAccess`, so its writes also change the seed. That sharing is part of the aliasing not modelled.
- Insertion order of a struct's attributes: `__attributes` is an ordered PHP array, but a struct's store here is a `map`. No method of the class can observe that order.
- Duplicate keys in an array: PHP arrays cannot hold them. `Arr` entries may hold them, and the properties that depend on distinct keys require `DistinctKeys`.
- Change tracking, the dirty set and lazy resolution of callables: none of these is in `lib/open_struct/open_struct.php`.
- The PHPUnit harness and the file loading.
