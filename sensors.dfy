/** The sensor dispatcher: `sensor(sensorName, callback)` looks the name up
    in a fixed table and runs a Generic Sensor API check or one of four
    availability functions; every outcome reaches the caller as a call
    `callback(available, data)`.

    The synchronous part of each check is a function that returns an
    `Outcome`: the callback calls it makes, what it asks of the host, and
    what it returns. `Page` holds what the checks leave behind (the calls
    made so far, started sensors, pending promises, open watches and battery
    listeners) and has one handler per asynchronous host event. */
module Sensors {
  import opened Values
  import opened Platform
  import Snapshot
  import Geolocation
  import Utils

  /** A table entry: the name of a Generic Sensor API type (a string
      entry), or one of the four availability functions. */
  datatype Check = CheckGeolocation | CheckMotion | CheckOrientation | CheckBattery
  datatype Entry = ApiType(sensorType: string) | Function(check: Check)

  const SensorMap: map<string, Entry> := map[
    "Geolocation" := Function(CheckGeolocation),
    "Accelerometer" := ApiType("Accelerometer"),
    "LinearAccelerationSensor" := ApiType("LinearAccelerationSensor"),
    "GravitySensor" := ApiType("GravitySensor"),
    "Gyroscope" := ApiType("Gyroscope"),
    "Magnetometer" := ApiType("Magnetometer"),
    "UncalibratedMagnetometer" := ApiType("UncalibratedMagnetometer"),
    "AbsoluteOrientationSensor" := ApiType("AbsoluteOrientationSensor"),
    "RelativeOrientationSensor" := ApiType("RelativeOrientationSensor"),
    "AmbientLightSensor" := ApiType("AmbientLightSensor"),
    "PressureSensor" := ApiType("PressureSensor"),
    "ProximitySensor" := ApiType("ProximitySensor"),
    "DeviceMotionEvent" := Function(CheckMotion),
    "DeviceOrientationEvent" := Function(CheckOrientation),
    "Battery" := Function(CheckBattery)]

  const NotAllowedError := "NotAllowedError"
  const NotReadableError := "NotReadableError"
  const TypeError := "TypeError"

  /** The events `checkBattery` listens to. */
  const BatteryEvents: set<string> :=
    {"chargingchange", "levelchange", "chargingtimechange", "dischargingtimechange"}

  /** A caller's callback, by identity. */
  type CallbackId = nat

  /** One call `callback(available, data)`; `None` is `null`. */
  datatype Call = Call(callback: CallbackId, available: bool, data: Option<Reading>)

  function Unavailable(cb: CallbackId): Call
  {
    Call(cb, false, None)
  }

  /** What every call promises: "unavailable" carries null, and a reading
      holds no function-valued field. */
  predicate WellFormed(c: Call)
  {
    && (!c.available ==> c.data == None)
    && (c.data.Some? ==> forall k :: k in c.data.value ==> !c.data.value[k].Func?)
  }

  /** Every call goes to `cb` and is well formed. */
  predicate ReportsTo(calls: seq<Call>, cb: CallbackId)
  {
    forall i :: 0 <= i < |calls| ==> calls[i].callback == cb && WellFormed(calls[i])
  }

  /** What a check starts on the host and leaves pending. */
  datatype Started =
    | NothingStarted
    | SensorListening(sensorType: string)  // constructed, error and reading listeners added
    | BatteryRequested                   // `navigator.getBattery()` pending
    | PermissionQueried                  // `navigator.permissions.query(...)` pending

  /** How a call returns to its caller. */
  datatype Completion = ReturnsUndefined | ReturnsInstance | Raises(errorName: string)

  /** The synchronous effect of one call: the callback calls made, the
      sensor type whose construction was attempted, what was started. */
  datatype Outcome = Outcome(
    calls: seq<Call>,
    constructed: Option<string>,
    started: Started,
    completion: Completion)

  /** Reported unavailable, touched nothing, returned undefined. */
  function Refused(cb: CallbackId): Outcome
  {
    Outcome([Unavailable(cb)], None, NothingStarted, ReturnsUndefined)
  }

  /** `checkSensors(sensorType, callback)` */
  function CheckSensorsOutcome(host: Host, sensorType: string, cb: CallbackId): (o: Outcome)
    ensures ReportsTo(o.calls, cb)
    ensures sensorType !in host.window ==> o == Refused(cb)
    ensures sensorType in host.window ==> o.constructed == Some(sensorType)
    ensures o.completion == ReturnsInstance
        <==> sensorType in host.window && host.construct(sensorType) == Constructs
    ensures o.completion == ReturnsInstance ==> o.calls == []
    ensures o.completion != ReturnsInstance
        ==> o.calls == [Unavailable(cb)] && o.completion == ReturnsUndefined
    ensures o.started == SensorListening(sensorType)
        <==> sensorType in host.window && !host.construct(sensorType).Throws?
    ensures !o.started.SensorListening? ==> o.started == NothingStarted
  {
    if sensorType in host.window then
      match host.construct(sensorType)
      case Constructs => Outcome([], Some(sensorType), SensorListening(sensorType), ReturnsInstance)
      // SecurityError, ReferenceError and any other error differ only in what they log
      case Throws(_) => Outcome([Unavailable(cb)], Some(sensorType), NothingStarted, ReturnsUndefined)
      // the listeners stay attached when `start()` throws
      case StartThrows(_) => Outcome([Unavailable(cb)], Some(sensorType), SensorListening(sensorType), ReturnsUndefined)
    else
      Refused(cb)
  }

  /** The error listener of a started sensor. */
  function SensorErrorCalls(cb: CallbackId, errorName: string): (calls: seq<Call>)
    ensures ReportsTo(calls, cb)
    ensures |calls| <= 1
    ensures calls != [] <==> errorName == "NotAllowedError" || errorName == "NotReadableError"
  {
    if errorName == NotAllowedError then [Unavailable(cb)]
    else if errorName == NotReadableError then [Unavailable(cb)]
    else []
  }

  /** `checkBattery(callback)` */
  function CheckBatteryOutcome(host: Host, cb: CallbackId): (o: Outcome)
    ensures ReportsTo(o.calls, cb)
    ensures o.completion == ReturnsUndefined && o.constructed == None
    ensures o.started == BatteryRequested <==> "getBattery" in host.navigator
    ensures o.started != BatteryRequested ==> o == Refused(cb)
    ensures o.started == BatteryRequested ==> o.calls == []
  {
    if "getBattery" in host.navigator then
      Outcome([], None, BatteryRequested, ReturnsUndefined)
    else
      Refused(cb)
  }

  /** `checkGeolocation(callback)`. Reading `navigator.permissions.query`
      when `navigator` has no `permissions` throws a TypeError out of the call. */
  function CheckGeolocationOutcome(host: Host, cb: CallbackId): (o: Outcome)
    ensures ReportsTo(o.calls, cb)
    ensures o.completion != ReturnsInstance && o.constructed == None
    ensures "geolocation" !in host.navigator ==> o == Refused(cb)
    ensures o.started == PermissionQueried
        <==> "geolocation" in host.navigator && "permissions" in host.navigator
    ensures o.completion.Raises?
        <==> "geolocation" in host.navigator && "permissions" !in host.navigator
    ensures o.completion.Raises? ==> o.completion.errorName == TypeError
    ensures "geolocation" in host.navigator ==> o.calls == []
  {
    if "geolocation" in host.navigator then
      if "permissions" in host.navigator then
        Outcome([], None, PermissionQueried, ReturnsUndefined)
      else
        Outcome([], None, NothingStarted, Raises(TypeError))
    else
      Refused(cb)
  }

  /** `checkMotion(callback)` */
  function CheckMotionOutcome(host: Host, cb: CallbackId): (o: Outcome)
    ensures o.calls == [Call(cb, "DeviceMotionEvent" in host.window, None)]
    ensures o.constructed == None && o.started == NothingStarted && o.completion == ReturnsUndefined
  {
    if "DeviceMotionEvent" in host.window then
      Outcome([Call(cb, true, None)], None, NothingStarted, ReturnsUndefined)
    else
      Refused(cb)
  }

  /** `checkOrientation(callback)` */
  function CheckOrientationOutcome(host: Host, cb: CallbackId): (o: Outcome)
    ensures o.calls == [Call(cb, "DeviceOrientationEvent" in host.window, None)]
    ensures o.constructed == None && o.started == NothingStarted && o.completion == ReturnsUndefined
  {
    if "DeviceOrientationEvent" in host.window then
      Outcome([Call(cb, true, None)], None, NothingStarted, ReturnsUndefined)
    else
      Refused(cb)
  }

  /** Invoking a function entry with the caller's callback. */
  function RunCheck(check: Check, host: Host, cb: CallbackId): Outcome
  {
    match check
    case CheckGeolocation => CheckGeolocationOutcome(host, cb)
    case CheckMotion => CheckMotionOutcome(host, cb)
    case CheckOrientation => CheckOrientationOutcome(host, cb)
    case CheckBattery => CheckBatteryOutcome(host, cb)
  }

  /** The call returned without a report because the answer now comes
      from the host: a started sensor, a battery or a permission promise. */
  predicate AwaitsHost(o: Outcome)
  {
    o.completion == ReturnsInstance || o.started == BatteryRequested || o.started == PermissionQueried
  }

  /** `sensor(sensorName, callback)` */
  function SensorOutcome(browser: bool, host: Host, sensorName: string, cb: CallbackId): (o: Outcome)
    ensures ReportsTo(o.calls, cb)
    ensures !browser ==> o == Outcome([], None, NothingStarted, ReturnsUndefined)
    ensures browser && sensorName !in SensorMap ==> o == Refused(cb)
    ensures browser && sensorName in SensorMap && SensorMap[sensorName].ApiType?
        ==> o == CheckSensorsOutcome(host, sensorName, cb)
    ensures browser && sensorName in SensorMap && SensorMap[sensorName].Function?
        ==> o == RunCheck(SensorMap[sensorName].check, host, cb)
    ensures o.constructed.Some? ==> o.constructed == Some(sensorName)
    ensures o.started.SensorListening? ==> o.started.sensorType == sensorName
    ensures o.completion == ReturnsInstance ==> o.started.SensorListening?
    ensures |o.calls| <= 1
    ensures browser ==> (o.calls == [] <==> AwaitsHost(o) || o.completion.Raises?)
  {
    if !browser then
      Outcome([], None, NothingStarted, ReturnsUndefined)
    else if sensorName !in SensorMap then
      Refused(cb)
    else
      match SensorMap[sensorName]
      case ApiType(sensorType) => CheckSensorsOutcome(host, sensorType, cb)
      case Function(check) => RunCheck(check, host, cb)
  }

  /** The table has the 15 keys; a string entry names the type under its
      own key, and the four function entries sit at their keys. */
  lemma SensorMapShape()
    ensures SensorMap.Keys == {
      "Geolocation", "Accelerometer", "LinearAccelerationSensor", "GravitySensor", "Gyroscope",
      "Magnetometer", "UncalibratedMagnetometer", "AbsoluteOrientationSensor",
      "RelativeOrientationSensor", "AmbientLightSensor", "PressureSensor", "ProximitySensor",
      "DeviceMotionEvent", "DeviceOrientationEvent", "Battery"}
    ensures forall name :: name in SensorMap && SensorMap[name].ApiType? ==> SensorMap[name].sensorType == name
    ensures SensorMap["Geolocation"] == Function(CheckGeolocation)
    ensures SensorMap["DeviceMotionEvent"] == Function(CheckMotion)
    ensures SensorMap["DeviceOrientationEvent"] == Function(CheckOrientation)
    ensures SensorMap["Battery"] == Function(CheckBattery)
  {
  }

  /** The only key of a given length whose first letter lower-cases to
      `first`: the 15 keys differ in length or in that letter. */
  function KeyWithSignature(length: nat, first: char): Option<string>
  {
    match (length, first)
    case (11, 'g') => Some("Geolocation")
    case (13, 'a') => Some("Accelerometer")
    case (24, 'l') => Some("LinearAccelerationSensor")
    case (13, 'g') => Some("GravitySensor")
    case (9, 'g') => Some("Gyroscope")
    case (12, 'm') => Some("Magnetometer")
    case (24, 'u') => Some("UncalibratedMagnetometer")
    case (25, 'a') => Some("AbsoluteOrientationSensor")
    case (25, 'r') => Some("RelativeOrientationSensor")
    case (18, 'a') => Some("AmbientLightSensor")
    case (14, 'p') => Some("PressureSensor")
    case (15, 'p') => Some("ProximitySensor")
    case (17, 'd') => Some("DeviceMotionEvent")
    case (22, 'd') => Some("DeviceOrientationEvent")
    case (7, 'b') => Some("Battery")
    case _ => None
  }

  lemma {:induction false} KeysHaveDistinctSignatures(name: string)
    requires name in SensorMap
    ensures 0 < |name| && KeyWithSignature(|name|, Utils.LowerChar(name[0])) == Some(name)
  {
  }

  /** The lookup is exact: a spelling of a key that differs from it only in
      letter case (say "geolocation" or "pressuresensor") is an unknown name. */
  lemma {:induction false} LookupIsCaseSensitive(host: Host, cb: CallbackId, key: string, spelling: string)
    requires key in SensorMap && spelling != key
    requires Utils.LowerAscii(spelling) == Utils.LowerAscii(key)
    ensures SensorOutcome(true, host, spelling, cb) == Refused(cb)
  {
    KeysHaveDistinctSignatures(key);
    var lower := Utils.LowerAscii(key);
    assert |spelling| == |key| && Utils.LowerChar(spelling[0]) == lower[0] == Utils.LowerChar(key[0]);
    if spelling in SensorMap {
      KeysHaveDistinctSignatures(spelling);
      assert false;
    }
  }

  /** "geolocation" is a case variant of the key "Geolocation", so it is unknown. */
  lemma LowerCaseGeolocationIsUnknown(host: Host, cb: CallbackId)
    ensures SensorOutcome(true, host, "geolocation", cb) == Refused(cb)
  {
    assert Utils.LowerAscii("geolocation") == Utils.LowerAscii("Geolocation");
    LookupIsCaseSensitive(host, cb, "Geolocation", "geolocation");
  }

  /** A constructed generic sensor, with its error and reading listeners. */
  datatype SensorInstance = SensorInstance(sensorType: string, callback: CallbackId)

  /** A promise the check is waiting on, and whether it has settled. */
  datatype Pending = Pending(callback: CallbackId, settled: bool)

  /** What `sensor` and the checks return: undefined, the started sensor
      instance (by its index in `Page.sensors`), or a thrown error. */
  datatype Return = UndefinedResult | Instance(index: nat) | Thrown(errorName: string)

  class Page {
    var trace: seq<Call>                 // every callback call, in order
    var sensors: seq<SensorInstance>     // constructed generic sensors with listeners
    var batteryRequests: seq<Pending>    // `navigator.getBattery()` promises
    var batteries: seq<CallbackId>       // batteries with the four change listeners
    var permissionQueries: seq<Pending>  // geolocation permission queries
    var watches: seq<CallbackId>         // open `watchPosition` watches

    ghost predicate Valid()
      reads this
    {
      forall i :: 0 <= i < |trace| ==> WellFormed(trace[i])
    }

    constructor ()
      ensures Valid()
      ensures trace == [] && sensors == [] && batteryRequests == []
      ensures batteries == [] && permissionQueries == [] && watches == []
    {
      trace, sensors, batteryRequests := [], [], [];
      batteries, permissionQueries, watches := [], [], [];
    }

    /** The page after a call whose synchronous effect is `o`. */
    twostate predicate Applied(o: Outcome, cb: CallbackId, r: Return)
      reads this
    {
      && trace == old(trace) + o.calls
      && sensors == old(sensors)
           + (if o.started.SensorListening? then [SensorInstance(o.started.sensorType, cb)] else [])
      && batteryRequests == old(batteryRequests)
           + (if o.started == BatteryRequested then [Pending(cb, false)] else [])
      && permissionQueries == old(permissionQueries)
           + (if o.started == PermissionQueried then [Pending(cb, false)] else [])
      && batteries == old(batteries)
      && watches == old(watches)
      && r == match o.completion
              case ReturnsUndefined => UndefinedResult
              case ReturnsInstance => Instance(|old(sensors)|)
              case Raises(name) => Thrown(name)
    }

    /** Only calls were added: no listener, promise or watch changed. */
    twostate predicate OnlyTraceChanged()
      reads this
    {
      && sensors == old(sensors)
      && batteryRequests == old(batteryRequests)
      && batteries == old(batteries)
      && permissionQueries == old(permissionQueries)
      && watches == old(watches)
    }

    method Sensor(browser: bool, host: Host, sensorName: string, cb: CallbackId) returns (r: Return)
      requires Valid()
      modifies this
      ensures Valid()
      ensures Applied(SensorOutcome(browser, host, sensorName, cb), cb, r)
    {
      if !browser {
        return UndefinedResult;
      }
      if sensorName !in SensorMap {
        trace := trace + [Unavailable(cb)];
        return UndefinedResult;
      }
      match SensorMap[sensorName]
      case ApiType(sensorType) =>
        r := CheckSensors(host, sensorType, cb);
      case Function(CheckGeolocation) =>
        r := CheckGeolocation(host, cb);
      case Function(CheckMotion) =>
        r := CheckMotion(host, cb);
      case Function(CheckOrientation) =>
        r := CheckOrientation(host, cb);
      case Function(CheckBattery) =>
        r := CheckBattery(host, cb);
    }

    method CheckSensors(host: Host, sensorType: string, cb: CallbackId) returns (r: Return)
      requires Valid()
      modifies this
      ensures Valid()
      ensures Applied(CheckSensorsOutcome(host, sensorType, cb), cb, r)
    {
      if sensorType in host.window {
        match host.construct(sensorType)
        case Constructs =>
          // the error and reading listeners are added, then start() is called
          sensors := sensors + [SensorInstance(sensorType, cb)];
          r := Instance(|sensors| - 1);
        case Throws(_) =>
          trace := trace + [Unavailable(cb)];
          r := UndefinedResult;
        case StartThrows(_) =>
          // the error and reading listeners were added before start() threw
          sensors := sensors + [SensorInstance(sensorType, cb)];
          trace := trace + [Unavailable(cb)];
          r := UndefinedResult;
      } else {
        trace := trace + [Unavailable(cb)];
        r := UndefinedResult;
      }
    }

    method CheckBattery(host: Host, cb: CallbackId) returns (r: Return)
      requires Valid()
      modifies this
      ensures Valid()
      ensures Applied(CheckBatteryOutcome(host, cb), cb, r)
    {
      if "getBattery" in host.navigator {
        batteryRequests := batteryRequests + [Pending(cb, false)];
      } else {
        trace := trace + [Unavailable(cb)];
      }
      r := UndefinedResult;
    }

    method CheckGeolocation(host: Host, cb: CallbackId) returns (r: Return)
      requires Valid()
      modifies this
      ensures Valid()
      ensures Applied(CheckGeolocationOutcome(host, cb), cb, r)
    {
      if "geolocation" in host.navigator {
        if "permissions" in host.navigator {
          permissionQueries := permissionQueries + [Pending(cb, false)];
          r := UndefinedResult;
        } else {
          r := Thrown(TypeError);
        }
      } else {
        trace := trace + [Unavailable(cb)];
        r := UndefinedResult;
      }
    }

    method CheckMotion(host: Host, cb: CallbackId) returns (r: Return)
      requires Valid()
      modifies this
      ensures Valid()
      ensures Applied(CheckMotionOutcome(host, cb), cb, r)
    {
      trace := trace + [Call(cb, "DeviceMotionEvent" in host.window, None)];
      r := UndefinedResult;
    }

    method CheckOrientation(host: Host, cb: CallbackId) returns (r: Return)
      requires Valid()
      modifies this
      ensures Valid()
      ensures Applied(CheckOrientationOutcome(host, cb), cb, r)
    {
      trace := trace + [Call(cb, "DeviceOrientationEvent" in host.window, None)];
      r := UndefinedResult;
    }

    /** The host fires `error` on started sensor `i`. */
    method SensorError(i: nat, errorName: string)
      requires Valid() && i < |sensors|
      modifies this
      ensures Valid() && OnlyTraceChanged()
      ensures trace == old(trace) + SensorErrorCalls(sensors[i].callback, errorName)
    {
      var calls := SensorErrorCalls(sensors[i].callback, errorName);
      trace := trace + calls;
    }

    /** The host fires `reading` on started sensor `i`, whose enumerable
        properties are now `current`. */
    method SensorReading(i: nat, current: HostObject)
      requires Valid() && i < |sensors|
      modifies this
      ensures Valid() && OnlyTraceChanged()
      ensures trace == old(trace)
        + [Call(sensors[i].callback, true, Some(Snapshot.Collect(current, Snapshot.NonFunction)))]
    {
      var data := Snapshot.TakeSnapshot(current, Snapshot.NonFunction);
      Snapshot.CollectHasNoFunctions(current, Snapshot.NonFunction);
      trace := trace + [Call(sensors[i].callback, true, Some(data))];
    }

    /** `navigator.getBattery()` of request `i` resolves with `battery`: one
        snapshot is reported and the four change listeners are added. The
        cleanup function is returned from the promise handler, so nothing
        can remove them. */
    method BatteryResolved(i: nat, battery: HostObject)
      requires Valid() && i < |batteryRequests| && !batteryRequests[i].settled
      modifies this
      ensures Valid()
      ensures batteryRequests == old(batteryRequests)[i := Pending(old(batteryRequests[i].callback), true)]
      ensures trace == old(trace)
        + [Call(old(batteryRequests[i].callback), true,
                Some(Snapshot.Collect(battery, Snapshot.NonFunctionNonHandler)))]
      ensures batteries == old(batteries) + [old(batteryRequests[i].callback)]
      ensures sensors == old(sensors) && permissionQueries == old(permissionQueries)
      ensures watches == old(watches)
    {
      var cb := batteryRequests[i].callback;
      batteryRequests := batteryRequests[i := Pending(cb, true)];
      var data := Snapshot.TakeSnapshot(battery, Snapshot.NonFunctionNonHandler);
      Snapshot.CollectHasNoFunctions(battery, Snapshot.NonFunctionNonHandler);
      trace := trace + [Call(cb, true, Some(data))];
      batteries := batteries + [cb];
    }

    /** `navigator.getBattery()` of request `i` rejects. */
    method BatteryRejected(i: nat)
      requires Valid() && i < |batteryRequests| && !batteryRequests[i].settled
      modifies this
      ensures Valid()
      ensures batteryRequests == old(batteryRequests)[i := Pending(old(batteryRequests[i].callback), true)]
      ensures trace == old(trace) + [Unavailable(old(batteryRequests[i].callback))]
      ensures sensors == old(sensors) && batteries == old(batteries)
      ensures permissionQueries == old(permissionQueries) && watches == old(watches)
    {
      var cb := batteryRequests[i].callback;
      batteryRequests := batteryRequests[i := Pending(cb, true)];
      trace := trace + [Unavailable(cb)];
    }

    /** Battery `j` fires `eventType`; its enumerable properties are now `battery`. */
    method BatteryChange(j: nat, eventType: string, battery: HostObject)
      requires Valid() && j < |batteries|
      modifies this
      ensures Valid() && OnlyTraceChanged()
      ensures trace == old(trace)
        + (if eventType in BatteryEvents
           then [Call(batteries[j], true, Some(Snapshot.Collect(battery, Snapshot.NonFunctionNonHandler)))]
           else [])
    {
      if eventType in BatteryEvents {
        var data := Snapshot.TakeSnapshot(battery, Snapshot.NonFunctionNonHandler);
        Snapshot.CollectHasNoFunctions(battery, Snapshot.NonFunctionNonHandler);
        trace := trace + [Call(batteries[j], true, Some(data))];
      }
    }

    /** Permission query `i` resolves with `state`: "granted" and "prompt"
        open a watch, any other state reports unavailable. The function
        that would clear the watch is returned from the promise handler and
        lost. */
    method PermissionResolved(i: nat, state: string)
      requires Valid() && i < |permissionQueries| && !permissionQueries[i].settled
      modifies this
      ensures Valid()
      ensures permissionQueries
           == old(permissionQueries)[i := Pending(old(permissionQueries[i].callback), true)]
      ensures state == "granted" || state == "prompt"
        ==> watches == old(watches) + [old(permissionQueries[i].callback)] && trace == old(trace)
      ensures !(state == "granted" || state == "prompt")
        ==> watches == old(watches) && trace == old(trace) + [Unavailable(old(permissionQueries[i].callback))]
      ensures sensors == old(sensors) && batteryRequests == old(batteryRequests)
      ensures batteries == old(batteries)
    {
      var cb := permissionQueries[i].callback;
      permissionQueries := permissionQueries[i := Pending(cb, true)];
      if state == "granted" || state == "prompt" {
        watches := watches + [cb];
      } else {
        trace := trace + [Unavailable(cb)];
      }
    }

    /** Permission query `i` rejects. */
    method PermissionRejected(i: nat)
      requires Valid() && i < |permissionQueries| && !permissionQueries[i].settled
      modifies this
      ensures Valid()
      ensures permissionQueries
           == old(permissionQueries)[i := Pending(old(permissionQueries[i].callback), true)]
      ensures trace == old(trace) + [Unavailable(old(permissionQueries[i].callback))]
      ensures sensors == old(sensors) && batteryRequests == old(batteryRequests)
      ensures batteries == old(batteries) && watches == old(watches)
    {
      var cb := permissionQueries[i].callback;
      permissionQueries := permissionQueries[i := Pending(cb, true)];
      trace := trace + [Unavailable(cb)];
    }

    /** Watch `w` reports position `p`. */
    method PositionUpdate(w: nat, p: Geolocation.Position)
      requires Valid() && w < |watches|
      modifies this
      ensures Valid() && OnlyTraceChanged()
      ensures trace == old(trace) + [Call(watches[w], true, Some(Geolocation.PositionData(p)))]
    {
      trace := trace + [Call(watches[w], true, Some(Geolocation.PositionData(p)))];
    }

    /** Watch `w` reports an error. */
    method PositionError(w: nat)
      requires Valid() && w < |watches|
      modifies this
      ensures Valid() && OnlyTraceChanged()
      ensures trace == old(trace) + [Unavailable(watches[w])]
    {
      trace := trace + [Unavailable(watches[w])];
    }
  }
}
