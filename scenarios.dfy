/**
 * A client of OpenStruct that replays the unit tests of
 * test/open_struct_test.php, one method per test, using only the
 * specifications above. The nested-unset test (lines 77-83) mutates a nested
 * struct through a shared handle and is not replayed: nested structs are
 * values in this model.
 */
module OpenStructScenarios {
  import opened PhpValues
  import opened OpenStructs

  const foo := StrKey("foo")
  const bar := StrKey("bar")

  /** `['bar' => 1]`, an associative array. */
  function Dict(): (d: Value)
    ensures IsAssociativeArray(d) && d.entries != [] && DistinctKeys(d.entries)
  {
    var d := Arr([(bar, Int(1))]);
    assert Keys(d.entries)[0] == bar;
    d
  }

  /** `[1]`, a one-element list whose value is already structified. */
  function OneList(): (l: Value)
    ensures IsStructified(l)
  {
    var l := Arr([(IntKey(0), Int(1))]);
    SingletonIsList(Int(1));
    l
  }

  method AssignSimpleValue()
  {
    var s := new OpenStruct(Null);
    s.PropertySet(foo, Int(1));
    var x := s.PropertyGet(foo);
    assert x == Int(1);
  }

  method AssignCallbackValue()
  {
    var s := new OpenStruct(Null);
    s.PropertySet(foo, Callable(7));
    var x := s.PropertyGet(foo);
    assert x == Callable(7);
  }

  method AssignDictValue()
  {
    var s := new OpenStruct(Null);
    s.PropertySet(foo, Dict());
    var x := s.PropertyGet(foo);
    NestedAccess(map[], foo, Dict(), 0);
    assert x.Struct? && Lookup(x.attributes, bar) == Int(1);
  }

  method AssignListValue()
  {
    var s := new OpenStruct(Null);
    s.PropertySet(foo, OneList());
    var x := s.PropertyGet(foo);
    FixpointsAreStructified(OneList());
    assert x == OneList();
  }

  method SeedSimpleValue()
  {
    var t := new OpenStruct(Arr([(foo, Int(1))]));
    var x := t.PropertyGet(foo);
    assert x == Int(1);
  }

  method SeedCallbackValue()
  {
    var t := new OpenStruct(Arr([(foo, Callable(7))]));
    var x := t.PropertyGet(foo);
    assert x == Callable(7);
  }

  method SeedDictValue()
  {
    var t := new OpenStruct(Arr([(foo, Dict())]));
    var x := t.PropertyGet(foo);
    StructifyAssociative(Dict());
    assert x.Struct? && Lookup(x.attributes, bar) == Int(1);
  }

  method SeedListValue()
  {
    var t := new OpenStruct(Arr([(foo, OneList())]));
    var x := t.PropertyGet(foo);
    FixpointsAreStructified(OneList());
    assert x == OneList();
  }

  method IndexingBySimpleKey()
  {
    var t := new OpenStruct(Arr([(foo, Int(1))]));
    var x := t.PropertyGet(foo);
    var y := t.OffsetGet(foo);
    assert x == y;
  }

  method UnsettingTopLevelKey()
  {
    var t := new OpenStruct(Arr([(foo, Int(1))]));
    t.OffsetUnset(foo);
    var x := t.PropertyGet(foo);
    assert x == Null;
  }
}
