/** The `for ... in` loops that copy a host object into a fresh `data`
    object: the reading listener of a generic sensor and `updateBatteryInfo`
    of the battery check. */
module Snapshot {
  import opened Values

  /** Which properties a loop copies. */
  datatype Filter =
    | NonFunction            // reading listener: skip function-valued properties
    | NonFunctionNonHandler  // battery: also skip keys starting with "on"

  predicate Keeps(filter: Filter, p: Property)
  {
    match filter
    case NonFunction => !p.value.Func?
    case NonFunctionNonHandler => !p.value.Func? && !StartsWith(p.key, "on")
  }

  /** The object the loop leaves in `data`: `data[key] = value` for every
      kept property, in enumeration order. */
  function Collect(obj: HostObject, filter: Filter): Reading
  {
    if obj == [] then map[]
    else
      var p := obj[|obj| - 1];
      var data := Collect(obj[..|obj| - 1], filter);
      if Keeps(filter, p) then data[p.key := p.value] else data
  }

  /** The loop itself: starts from `{}` and assigns each kept property. */
  method TakeSnapshot(obj: HostObject, filter: Filter) returns (data: Reading)
    ensures data == Collect(obj, filter)
  {
    data := map[];
    var i := 0;
    while i < |obj|
      invariant 0 <= i <= |obj|
      invariant data == Collect(obj[..i], filter)
    {
      var p := obj[i];
      assert obj[..i + 1][..i] == obj[..i];
      if Keeps(filter, p) {
        data := data[p.key := p.value];
      }
      i := i + 1;
    }
    assert obj[..|obj|] == obj;
  }

  /** The snapshot has exactly the keys of the kept properties. */
  lemma {:induction false} CollectKeys(obj: HostObject, filter: Filter, key: string)
    ensures key in Collect(obj, filter)
        <==> exists i :: 0 <= i < |obj| && obj[i].key == key && Keeps(filter, obj[i])
  {
    if obj != [] {
      var n := |obj| - 1;
      var init := obj[..n];
      CollectKeys(init, filter, key);
      if exists i :: 0 <= i < n && init[i].key == key && Keeps(filter, init[i]) {
        var i :| 0 <= i < n && init[i].key == key && Keeps(filter, init[i]);
        assert obj[i] == init[i];
      }
      if exists i :: 0 <= i < |obj| && obj[i].key == key && Keeps(filter, obj[i]) {
        var i :| 0 <= i < |obj| && obj[i].key == key && Keeps(filter, obj[i]);
        if i < n {
          assert init[i] == obj[i];
        }
      }
    }
  }

  /** Every kept property reaches the snapshot with its value unchanged. */
  lemma {:induction false} CollectValue(obj: HostObject, filter: Filter, i: nat)
    requires DistinctKeys(obj)
    requires i < |obj| && Keeps(filter, obj[i])
    ensures obj[i].key in Collect(obj, filter)
    ensures Collect(obj, filter)[obj[i].key] == obj[i].value
  {
    var n := |obj| - 1;
    if i < n {
      var init := obj[..n];
      assert init[i] == obj[i];
      CollectValue(init, filter, i);
      assert obj[n].key != obj[i].key;
    }
  }

  /** No function-valued property survives into a snapshot. */
  lemma {:induction false} CollectHasNoFunctions(obj: HostObject, filter: Filter)
    ensures forall k :: k in Collect(obj, filter) ==> !Collect(obj, filter)[k].Func?
  {
    if obj != [] {
      CollectHasNoFunctions(obj[..|obj| - 1], filter);
    }
  }

  /** No event-handler property (a key starting with "on") survives into a
      battery snapshot. */
  lemma {:induction false} BatterySnapshotHasNoHandlers(obj: HostObject)
    ensures forall k :: k in Collect(obj, NonFunctionNonHandler) ==> !StartsWith(k, "on")
  {
    if obj != [] {
      BatterySnapshotHasNoHandlers(obj[..|obj| - 1]);
    }
  }

  /** A BatteryManager: its status fields are kept, its `on...` handler
      properties and its methods are dropped. */
  lemma BatteryExample(level: real, chargingTime: real, dischargingTime: real)
    ensures Collect(BatteryObject(level, chargingTime, dischargingTime), NonFunctionNonHandler)
      == map["charging" := Bool(true), "chargingTime" := Num(chargingTime),
             "dischargingTime" := Num(dischargingTime), "level" := Num(level)]
  {
    var obj := BatteryObject(level, chargingTime, dischargingTime);
    var f := NonFunctionNonHandler;
    forall k | k in {"charging", "chargingTime", "dischargingTime", "level", "onchargingchange"}
      ensures StartsWith(k, "on") <==> k == "onchargingchange"
    {
      StartsWithOn(k);
    }
    var m4 := map["charging" := Bool(true), "chargingTime" := Num(chargingTime),
                  "dischargingTime" := Num(dischargingTime), "level" := Num(level)];
    CollectStep(obj, f, 0);
    assert Collect(obj[..1], f) == map["charging" := Bool(true)] by { assert obj[..0] == []; }
    CollectStep(obj, f, 1);
    CollectStep(obj, f, 2);
    CollectStep(obj, f, 3);
    assert Collect(obj[..4], f) == m4;
    CollectStep(obj, f, 4);
    assert Collect(obj[..5], f) == m4;
    CollectStep(obj, f, 5);
    assert Collect(obj[..6], f) == m4;
    CollectStep(obj, f, 6);
    assert obj[..7] == obj;
  }

  /** One more turn of the loop. */
  lemma CollectStep(obj: HostObject, filter: Filter, n: nat)
    requires n < |obj|
    ensures Collect(obj[..n + 1], filter)
         == if Keeps(filter, obj[n]) then Collect(obj[..n], filter)[obj[n].key := obj[n].value]
            else Collect(obj[..n], filter)
  {
    assert obj[..n + 1][..n] == obj[..n];
  }

  lemma StartsWithOn(s: string)
    ensures StartsWith(s, "on") <==> 2 <= |s| && s[0] == 'o' && s[1] == 'n'
  {
    if 2 <= |s| && s[0] == 'o' && s[1] == 'n' {
      assert s[..2] == "on";
    }
  }

  function BatteryObject(level: real, chargingTime: real, dischargingTime: real): HostObject
  {
    [ Property("charging", Bool(true)),
      Property("chargingTime", Num(chargingTime)),
      Property("dischargingTime", Num(dischargingTime)),
      Property("level", Num(level)),
      Property("onchargingchange", Null),
      Property("onlevelchange", Func),
      Property("addEventListener", Func)]
  }

  /** The battery snapshot is the generic snapshot with the "on" keys removed. */
  lemma {:induction false} BatterySnapshotRestrictsGeneric(obj: HostObject)
    ensures Collect(obj, NonFunctionNonHandler)
         == map k | k in Collect(obj, NonFunction) && !StartsWith(k, "on") :: Collect(obj, NonFunction)[k]
  {
    if obj != [] {
      BatterySnapshotRestrictsGeneric(obj[..|obj| - 1]);
    }
  }
}
