/** The JavaScript values the sensor code sees: properties of host objects
    and the fields of the readings it hands to callbacks. */
module Values {

  datatype Option<+T> = None | Some(value: T)

  /** A JavaScript value, as far as the sensor code distinguishes them.
      `Func` stands for any value whose `typeof` is 'function'. */
  datatype Value =
    | Undefined
    | Null
    | Bool(b: bool)
    | Num(n: real)
    | Str(s: string)
    | Func
    | Obj(fields: map<string, Value>)

  /** The `data` object a callback receives: a plain object built key by key. */
  type Reading = map<string, Value>

  /** One enumerable property of a host object, as `for (const key in obj)`
      yields its key, paired with the value `obj[key]` read at that moment. */
  datatype Property = Property(key: string, value: Value)

  /** A host object (a sensor instance, a BatteryManager) seen through
      `for ... in`: its enumerable properties in enumeration order. */
  type HostObject = seq<Property>

  /** `for ... in` never yields the same key twice. */
  predicate DistinctKeys(obj: HostObject)
  {
    forall i, j :: 0 <= i < j < |obj| ==> obj[i].key != obj[j].key
  }

  /** `s.startsWith(prefix)` */
  predicate StartsWith(s: string, prefix: string)
  {
    |prefix| <= |s| && s[..|prefix|] == prefix
  }
}
