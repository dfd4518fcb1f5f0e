/** `sensor(sensorName)` of the utilities: a case-insensitive switch from a
    sensor name to one presence check on `window` or `navigator`, wrapped
    in a try/catch so that it never throws. */
module Utils {
  import opened Values
  import opened Platform

  /** `toLowerCase` on one character, over ASCII. */
  function LowerChar(c: char): char
  {
    if 'A' <= c <= 'Z' then (c as int - 'A' as int + 'a' as int) as char else c
  }

  /** `toLowerCase` over ASCII. */
  function LowerAscii(s: string): (r: string)
    ensures |r| == |s|
    ensures forall i :: 0 <= i < |s| ==> r[i] == LowerChar(s[i])
  {
    if s == [] then [] else [LowerChar(s[0])] + LowerAscii(s[1..])
  }

  /** How the body of the try block ends. */
  datatype Evaluation = Returns(value: bool) | Fails

  /** The `switch` over the lower-cased name. `'create' in
      navigator.credentials` throws when `credentials` is not an object. */
  function Switch(host: Host, name: string): (e: Evaluation)
    ensures e.Fails?
        <==> name == "fingerprint" && "credentials" in host.navigator && host.credentials.None?
    ensures e.Returns? ==> e.value == (name in Recognised && Holds(host, Recognised[name]))
  {
    match name
    case "geolocation" => Returns("geolocation" in host.navigator)
    case "accelerometer" => Returns("Accelerometer" in host.window)
    case "gyroscope" => Returns("Gyroscope" in host.window)
    case "magnetometer" => Returns("Magnetometer" in host.window)
    case "ambientlight" => Returns("AmbientLightSensor" in host.window)
    case "proximity" => Returns("ProximitySensor" in host.window)
    case "barometer" => Returns("Barometer" in host.window)
    case "heart-rate" => Returns("HeartRateSensor" in host.window)
    case "fingerprint" =>
      if "credentials" !in host.navigator then Returns(false)
      else if host.credentials.None? then Fails
      else Returns("create" in host.credentials.value)
    case "thermometer" => Returns("Thermometer" in host.window)
    case "pedometer" => Returns("Pedometer" in host.window)
    case "face-recognition" => Returns("FaceDetector" in host.window)
    case _ => Returns(false)
  }

  /** `sensor(sensorName)`: `None` is the `null` returned outside the
      browser. A name that is not a string has no `toLowerCase`, so the
      call throws and the catch returns false. */
  function Sensor(browser: bool, host: Host, sensorName: Value): (r: Option<bool>)
    ensures !browser ==> r == None
    ensures browser ==> r.Some?
    ensures browser && !sensorName.Str? ==> r == Some(false)
    ensures browser && sensorName.Str? && LowerAscii(sensorName.s) !in Recognised ==> r == Some(false)
  {
    if !browser then None
    else
      var evaluation := match sensorName
        case Str(s) => Switch(host, LowerAscii(s))
        case _ => Fails;
      match evaluation
      case Returns(b) => Some(b)
      case Fails => Some(false)
  }

  /** The same switch written as a table: the presence check each
      recognised lower-case name stands for. */
  datatype Presence = InWindow(symbol: string) | InNavigator(symbol: string) | CanCreateCredentials

  const Recognised: map<string, Presence> := map[
    "geolocation" := InNavigator("geolocation"),
    "accelerometer" := InWindow("Accelerometer"),
    "gyroscope" := InWindow("Gyroscope"),
    "magnetometer" := InWindow("Magnetometer"),
    "ambientlight" := InWindow("AmbientLightSensor"),
    "proximity" := InWindow("ProximitySensor"),
    "barometer" := InWindow("Barometer"),
    "heart-rate" := InWindow("HeartRateSensor"),
    "fingerprint" := CanCreateCredentials,
    "thermometer" := InWindow("Thermometer"),
    "pedometer" := InWindow("Pedometer"),
    "face-recognition" := InWindow("FaceDetector")]

  predicate Holds(host: Host, check: Presence)
  {
    match check
    case InWindow(symbol) => symbol in host.window
    case InNavigator(symbol) => symbol in host.navigator
    case CanCreateCredentials =>
      "credentials" in host.navigator && host.credentials.Some? && "create" in host.credentials.value
  }

  /** In the browser, the answer for a string name is the table's check for
      its lower-cased form, and false for every other name. */
  lemma SensorMatchesTable(host: Host, sensorName: string)
    ensures var name := LowerAscii(sensorName);
      Sensor(true, host, Str(sensorName)) == Some(name in Recognised && Holds(host, Recognised[name]))
  {
  }

  /** Names that differ only in letter case get the same answer. */
  lemma {:induction false} CaseInsensitive(browser: bool, host: Host, a: string, b: string)
    requires |a| == |b|
    requires forall i :: 0 <= i < |a| ==> LowerChar(a[i]) == LowerChar(b[i])
    ensures Sensor(browser, host, Str(a)) == Sensor(browser, host, Str(b))
  {
    assert LowerAscii(a) == LowerAscii(b);
  }

  lemma {:induction false} LowerAsciiIdempotent(s: string)
    ensures LowerAscii(LowerAscii(s)) == LowerAscii(s)
  {
    if s != [] {
      LowerAsciiIdempotent(s[1..]);
    }
  }

  /** A name and its lower-cased form get the same answer. */
  lemma DependsOnlyOnLowerCase(browser: bool, host: Host, s: string)
    ensures Sensor(browser, host, Str(s)) == Sensor(browser, host, Str(LowerAscii(s)))
  {
    LowerAsciiIdempotent(s);
  }

  /** `fingerprint` holds exactly when `navigator` has `credentials` and
      `credentials` has `create`; a non-object `credentials` reads false. */
  lemma Fingerprint(host: Host, s: string)
    requires LowerAscii(s) == "fingerprint"
    ensures Sensor(true, host, Str(s))
         == Some("credentials" in host.navigator && host.credentials.Some? && "create" in host.credentials.value)
  {
  }
}
