# Sensor availability dispatch, modelled in Dafny

This project models the core of a small Svelte library that reports device
sensors to a callback. Its entry point is `sensor(sensorName, callback)` in
`src/lib/sensor/sensors.svelte.js`. The function looks the name up in a fixed
table of 15 entries. A string entry names a Generic Sensor API type, which
`checkSensors` constructs, listens to and starts. A function entry is one of
four checks:

- `checkGeolocation`: a permission query, then a position watch.
- `checkBattery`: a `getBattery()` snapshot plus change listeners.
- `checkMotion` and `checkOrientation`: static presence checks.

Every outcome reaches the caller as `callback(available, data)`. The model
also covers the companion `sensor(sensorName)` in
`src/lib/utils/utils.svelte.js`. It lower-cases the name and answers one of
12 presence checks on `window` or `navigator`.

## How the model is built

- `Values` holds JavaScript values as far as the code tells them apart.
  `Func` is any value whose `typeof` is `'function'`. A reading is a
  `map<string, Value>`. A host object seen through `for ... in` is the
  sequence of its enumerable properties.
- `Platform` describes the host as a record: the names present on `window`,
  on `navigator` and on `navigator.credentials`, and what
  `new window[type]()` and the `start()` after it do. Either both succeed,
  or one of them throws an error with a given name.
- `Snapshot` holds the two `for ... in` loops that copy a host object into
  `data`. The method `TakeSnapshot` is proved equal to the function
  `Collect`, and the lemmas state which keys and values survive.
- `Geolocation` builds the `data` object of the position listener, with the
  speed in km/h and mph formatted by `toFixed()`.
- `Sensors` gives each check's synchronous effect as an `Outcome`. An outcome
  records the callback calls made, the construction attempted, what was
  started on the host, and the return value. The class `Page` holds the
  state these calls leave behind: every callback call so far (`trace`),
  sensors with their listeners, pending promises, battery listeners and
  position watches.
  It has one method per check and one handler per asynchronous host event:
  sensor `error` and `reading`, battery promise settled, battery change,
  permission promise settled, position and position error. Its invariant
  `Valid()` says every call in the trace is well formed: "unavailable" carries
  `null`, and no reading holds a function-valued field.
- `Utils` models the lower-cased `switch`. The `try`/`catch` is modelled as
  an `Evaluation` that may fail.
- Callbacks are identified by a number (`CallbackId`), so the model can state
  that every call goes to the caller's own callback.

The model follows the code as written, including these behaviours a
reader might not expect:

- The table lookup in `sensor` is exact and case-sensitive, and it has no
  aliases. `"geolocation"` and `"pressuresensor"` are unknown names there.
- There is no stop or disposer operation and no probe-once mode.
- Failures are not sorted into kinds. Every failure is simply
  `callback(false, null)`.
- A runtime sensor error other than `NotAllowedError` or `NotReadableError`
  produces no callback at all.
- `checkMotion` and `checkOrientation` report `(true, null)` when the event
  type exists.
- When `navigator` has `geolocation` but no `permissions`, reading
  `navigator.permissions.query` throws a TypeError. The error leaves
  `checkGeolocation` and `sensor` without any callback.
- `checkBattery` and `checkGeolocation` return their cleanup functions from
  promise handlers, so the functions themselves return `undefined`. Nothing
  can remove the battery listeners or clear a position watch, and `Page` has
  no operation for either.

## Model

| member | source | states |
|---|---|---|
| Snapshot.TakeSnapshot | src/lib/sensor/sensors.svelte.js:62-67 | the `for ... in` loop leaves `data` equal to `Collect`: each kept property assigned in enumeration order |
| Snapshot.CollectKeys | src/lib/sensor/sensors.svelte.js:63-66 | a key is in the snapshot if and only if some enumerable property with that key passes the filter |
| Snapshot.CollectValue | src/lib/sensor/sensors.svelte.js:63-66 | every kept property reaches the snapshot with its value unchanged |
| Snapshot.CollectHasNoFunctions | src/lib/sensor/sensors.svelte.js:64 | no function-valued property survives into a snapshot |
| Snapshot.BatterySnapshotHasNoHandlers | src/lib/sensor/sensors.svelte.js:102-105 | no key starting with "on" survives into a battery snapshot |
| Snapshot.BatteryExample | src/lib/sensor/sensors.svelte.js:97-108 | a battery with status fields, `on...` handlers and a method keeps exactly its four status fields |
| Snapshot.BatterySnapshotRestrictsGeneric | src/lib/sensor/sensors.svelte.js:97-108 | the battery snapshot is the generic snapshot with the "on" keys removed |
| Geolocation.RoundHalfUp | src/lib/sensor/sensors.svelte.js:160 | `toFixed()` picks the integer nearest to the value, the larger one on a tie |
| Geolocation.Decimal | src/lib/sensor/sensors.svelte.js:160 | the numeral is non-empty, all digits, with no leading zero |
| Geolocation.DecimalRoundTrip | src/lib/sensor/sensors.svelte.js:160 | reading the numeral back gives the number |
| Geolocation.ToFixed | src/lib/sensor/sensors.svelte.js:160-163 | `toFixed()` of a non-negative value is the canonical numeral of its nearest integer (non-empty, all digits, no leading zero); a negative value gets a "-" before the canonical numeral of its magnitude's |
| Geolocation.SpeedText | src/lib/sensor/sensors.svelte.js:159-164 | a derived speed is null exactly when the raw speed is falsy, else the formatted product with its unit |
| Geolocation.PositionData | src/lib/sensor/sensors.svelte.js:149-166 | the position data has exactly the keys `timestamp` and `coords`, and no function values |
| Geolocation.SpeedUnitsNullExactlyWhenFalsy | src/lib/sensor/sensors.svelte.js:158-164 | `speedKph` and `speedMph` are null exactly when `speed` is null or 0; `speed` is copied |
| Geolocation.TenMetresPerSecond | src/lib/sensor/sensors.svelte.js:159-164 | 10 m/s reads "36 /kph" and "22 /mph" |
| Sensors.CheckSensorsOutcome | src/lib/sensor/sensors.svelte.js:47-90 | a type absent from `window` gives one (false, null) and no construction; a constructor or `start()` that throws any error gives one (false, null) and returns undefined, with the listeners left attached when only `start()` threw; a successful start makes no call and returns the instance |
| Sensors.SensorErrorCalls | src/lib/sensor/sensors.svelte.js:51-59 | a runtime error reports (false, null) once for NotAllowedError and NotReadableError, and nothing for any other name |
| Sensors.CheckBatteryOutcome | src/lib/sensor/sensors.svelte.js:92-136 | with `getBattery` the battery is requested and no call is made yet; without it, one (false, null); always returns undefined |
| Sensors.CheckGeolocationOutcome | src/lib/sensor/sensors.svelte.js:138-196 | without `geolocation`, one (false, null); with it, the permission is queried and no call is made, or a TypeError is thrown when `permissions` is missing; never returns an instance |
| Sensors.CheckMotionOutcome | src/lib/sensor/sensors.svelte.js:198-204 | exactly one call (presence of `DeviceMotionEvent`, null) and nothing started |
| Sensors.CheckOrientationOutcome | src/lib/sensor/sensors.svelte.js:206-212 | exactly one call (presence of `DeviceOrientationEvent`, null) and nothing started |
| Sensors.SensorOutcome | src/lib/sensor/sensors.svelte.js:24-45 | outside the browser: no call, undefined; an unknown name: one (false, null), nothing touched; a string entry goes to `checkSensors` with its own key, a function entry runs with the caller's callback; every call goes to that callback and is well formed; at most one synchronous call, and exactly one unless the answer now comes from the host (a started sensor, a pending promise) or an error was thrown |
| Sensors.SensorMapShape | src/lib/sensor/sensors.svelte.js:4-22 | the table has exactly the 15 keys; every string entry equals its key; `Geolocation`, `DeviceMotionEvent`, `DeviceOrientationEvent` and `Battery` hold the four checks |
| Sensors.LookupIsCaseSensitive | src/lib/sensor/sensors.svelte.js:30-34 | for every key, any other spelling that differs from it only in letter case (such as "geolocation" or "pressuresensor") is an unknown name and gives one (false, null) |
| Sensors.LowerCaseGeolocationIsUnknown | src/lib/sensor/sensors.svelte.js:30-34 | `sensor("geolocation", callback)` finds no entry and gives one (false, null) |
| Sensors.Page.Sensor | src/lib/sensor/sensors.svelte.js:24-45 | the page after `sensor` is the old page with the outcome's calls, new sensor or pending promise added; the return value matches; the trace stays well formed |
| Sensors.Page.CheckSensors | src/lib/sensor/sensors.svelte.js:47-90 | the page after `checkSensors` follows its outcome; a constructed sensor with its listeners is added, and returned when `start()` succeeded |
| Sensors.Page.CheckBattery | src/lib/sensor/sensors.svelte.js:92-136 | the page after `checkBattery` follows its outcome |
| Sensors.Page.CheckGeolocation | src/lib/sensor/sensors.svelte.js:138-196 | the page after `checkGeolocation` follows its outcome |
| Sensors.Page.CheckMotion | src/lib/sensor/sensors.svelte.js:198-204 | one call (presence, null) is appended |
| Sensors.Page.CheckOrientation | src/lib/sensor/sensors.svelte.js:206-212 | one call (presence, null) is appended |
| Sensors.Page.SensorError | src/lib/sensor/sensors.svelte.js:51-59 | an error event appends the error listener's calls and changes nothing else |
| Sensors.Page.SensorReading | src/lib/sensor/sensors.svelte.js:60-70 | a reading event appends (true, snapshot of the sensor's non-function properties) |
| Sensors.Page.BatteryResolved | src/lib/sensor/sensors.svelte.js:96-120 | the resolved battery reports (true, battery snapshot) once and gets its change listeners; the promise is settled |
| Sensors.Page.BatteryRejected | src/lib/sensor/sensors.svelte.js:130-132 | a rejected battery promise reports one (false, null) |
| Sensors.Page.BatteryChange | src/lib/sensor/sensors.svelte.js:97-120 | each of the four change events reports (true, battery snapshot); any other event reports nothing |
| Sensors.Page.PermissionResolved | src/lib/sensor/sensors.svelte.js:143-187 | "granted" or "prompt" opens a watch and makes no call; any other state makes one (false, null) and opens no watch |
| Sensors.Page.PermissionRejected | src/lib/sensor/sensors.svelte.js:189-192 | a rejected permission query makes one (false, null) and opens no watch |
| Sensors.Page.PositionUpdate | src/lib/sensor/sensors.svelte.js:147-169 | a position reports (true, position data) |
| Sensors.Page.PositionError | src/lib/sensor/sensors.svelte.js:170-173 | a watch error reports one (false, null) |
| Utils.LowerAscii | src/lib/utils/utils.svelte.js:11 | lower-casing keeps the length and maps each character |
| Utils.Sensor | src/lib/utils/utils.svelte.js:4-54 | outside the browser null; in the browser always a boolean; a non-string name and an unrecognised name give false |
| Utils.Switch | src/lib/utils/utils.svelte.js:11-50 | the switch fails only for `fingerprint` when `navigator.credentials` is not an object; otherwise it returns the table's presence check for a recognised name and false for any other |
| Utils.SensorMatchesTable | src/lib/utils/utils.svelte.js:11-49 | the switch answers the table's presence check for the lower-cased name, and false for names outside the 12 |
| Utils.CaseInsensitive | src/lib/utils/utils.svelte.js:11 | names that differ only in letter case give the same answer |
| Utils.DependsOnlyOnLowerCase | src/lib/utils/utils.svelte.js:11 | a name and its lower-cased form give the same answer |
| Utils.Fingerprint | src/lib/utils/utils.svelte.js:36-37 | `fingerprint` is true exactly when `navigator` has `credentials` and `credentials` has `create` |

## Left out

- Console logging carries no behaviour. The three `catch` branches of `checkSensors` differ only in their log message, so the model has one branch for them.
- Promise scheduling and event-loop order are not modelled. Each settled promise and each host event is a separate handler call on `Page`, made in whatever order the host chooses.
- The host's own behaviour is input to the model: whether sensor construction and `start()` succeed or throw, `watchPosition`, the permission state and the battery object.
- A host function that throws inside a promise handler is not modelled. This covers `watchPosition` and a callback that throws; either would lead to the `.catch` handler's (false, null).
- A callback that throws when it is called synchronously is not modelled. This happens at sensors.svelte.js lines 32, 43, 78-88, 134, 194, 200-202 and 208-210. The exception would leave `sensor` or the check after the call was made. The model's completion there is always a normal return of undefined.
- Stopping a returned sensor instance is the caller's business with the host, so `Page` has no stop operation.
- Geolocation.ToFixed: the speed conversion uses exact real arithmetic, not IEEE doubles. The rounding can differ from JavaScript's at values a double cannot represent exactly. NaN speeds and values of 1e21 or more, which `toFixed` prints in exponent form, are not modelled.
- Utils.Sensor: lower-casing covers ASCII only. A non-string argument that has its own `toLowerCase` method is treated like any other non-string, as throwing.
- Table lookups through the JavaScript prototype chain are not modelled. The table is a map of its 15 own keys, and names are strings. A name like `toString` finds an inherited function and calls it. A name like `__proto__` finds `Object.prototype` and takes the `else` branch of `sensor` for an entry that is neither a string nor a function. The model treats all such names as unknown. For the `else` branch this gives the same single (false, null), so the model has no separate branch.
- `src/lib/sensor/sensors.js` is a static list of names and descriptions, and `src/lib/utils/utils.js` is fullscreen I/O. Neither is part of this model.
