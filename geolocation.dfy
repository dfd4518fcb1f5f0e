/** The position listener of the geolocation check: the `data` object it
    builds from a `GeolocationPosition`, including the speed converted to
    kilometres and miles per hour and formatted with `toFixed()`. */
module Geolocation {
  import opened Values

  /** `GeolocationCoordinates`: the nullable fields are `Option`s. */
  datatype Coordinates = Coordinates(
    latitude: real,
    longitude: real,
    altitude: Option<real>,
    accuracy: real,
    altitudeAccuracy: Option<real>,
    heading: Option<real>,
    speed: Option<real>)

  datatype Position = Position(timestamp: real, coords: Coordinates)

  const KphPerMetrePerSecond: real := 3.6
  const MphPerMetrePerSecond: real := 2.23694

  function Nullable(x: Option<real>): Value
  {
    match x
    case None => Null
    case Some(v) => Num(v)
  }

  /** JavaScript truthiness of a nullable number: null and 0 are falsy. */
  predicate Truthy(x: Option<real>)
  {
    x.Some? && x.value != 0.0
  }

  /** The integer `toFixed()` picks: the one nearest to x, the larger on a tie. */
  function RoundHalfUp(x: real): (n: nat)
    requires x >= 0.0
    ensures n as real - 0.5 <= x < n as real + 0.5
  {
    (x + 0.5).Floor
  }

  function Digit(d: nat): (c: char)
    requires d < 10
    ensures '0' <= c <= '9'
  {
    "0123456789"[d]
  }

  predicate IsDigits(s: string)
  {
    forall i :: 0 <= i < |s| ==> '0' <= s[i] <= '9'
  }

  /** The decimal numeral of n, without leading zeros. */
  function Decimal(n: nat): (s: string)
    ensures 1 <= |s| && IsDigits(s)
    ensures n > 0 ==> s[0] != '0'
  {
    if n < 10 then [Digit(n)] else Decimal(n / 10) + [Digit(n % 10)]
  }

  /** The number a numeral denotes: the inverse of `Decimal`. */
  function DecimalValue(s: string): nat
    requires IsDigits(s)
  {
    if s == [] then 0
    else 10 * DecimalValue(s[..|s| - 1]) + (s[|s| - 1] as int - '0' as int)
  }

  lemma {:induction false} DecimalRoundTrip(n: nat)
    ensures DecimalValue(Decimal(n)) == n
  {
    var s := Decimal(n);
    if n >= 10 {
      DecimalRoundTrip(n / 10);
      assert s[..|s| - 1] == Decimal(n / 10);
    }
  }

  /** `x.toFixed()`: the sign, then the nearest integer in decimal. */
  function ToFixed(x: real): (s: string)
    ensures x >= 0.0 ==> IsDigits(s) && DecimalValue(s) == RoundHalfUp(x)
    ensures x >= 0.0 ==> 1 <= |s| && (|s| > 1 ==> s[0] != '0')
    ensures x < 0.0 ==> 1 < |s| && s[0] == '-' && IsDigits(s[1..]) && DecimalValue(s[1..]) == RoundHalfUp(-x)
    ensures x < 0.0 ==> (|s| > 2 ==> s[1] != '0')
  {
    if x < 0.0 then
      DecimalRoundTrip(RoundHalfUp(-x));
      assert ("-" + Decimal(RoundHalfUp(-x)))[1..] == Decimal(RoundHalfUp(-x));
      "-" + Decimal(RoundHalfUp(-x))
    else
      DecimalRoundTrip(RoundHalfUp(x));
      Decimal(RoundHalfUp(x))
  }

  /** A derived speed: null for a falsy speed, otherwise the product with
      the unit factor, rounded by `toFixed()`, followed by the unit text. */
  function SpeedText(speed: Option<real>, factor: real, unit: string): (v: Value)
    ensures v == Null <==> !Truthy(speed)
    ensures v != Null ==> v == Str(ToFixed(speed.value * factor) + unit)
  {
    if Truthy(speed) then Str(ToFixed(speed.value * factor) + unit) else Null
  }

  function CoordsData(c: Coordinates): Value
  {
    Obj(map[
      "latitude" := Num(c.latitude),
      "longitude" := Num(c.longitude),
      "altitude" := Nullable(c.altitude),
      "accuracy" := Num(c.accuracy),
      "altitudeAccuracy" := Nullable(c.altitudeAccuracy),
      "heading" := Nullable(c.heading),
      "speed" := Nullable(c.speed),
      "speedKph" := SpeedText(c.speed, KphPerMetrePerSecond, " /kph"),
      "speedMph" := SpeedText(c.speed, MphPerMetrePerSecond, " /mph")])
  }

  /** The `data` object the position listener passes to the callback. */
  function PositionData(p: Position): (data: Reading)
    ensures data.Keys == {"timestamp", "coords"}
    ensures forall k :: k in data ==> !data[k].Func?
  {
    map["timestamp" := Num(p.timestamp), "coords" := CoordsData(p.coords)]
  }

  /** Both derived speeds are null exactly when the raw speed is falsy:
      when it is null and when it is 0. */
  lemma SpeedUnitsNullExactlyWhenFalsy(p: Position)
    ensures var coords := PositionData(p)["coords"].fields;
      && (coords["speedKph"] == Null <==> p.coords.speed == None || p.coords.speed == Some(0.0))
      && (coords["speedMph"] == Null <==> p.coords.speed == None || p.coords.speed == Some(0.0))
      && coords["speed"] == Nullable(p.coords.speed)
  {
  }

  /** A speed of 10 m/s reads "36 /kph" and "22 /mph". */
  lemma TenMetresPerSecond(p: Position)
    requires p.coords.speed == Some(10.0)
    ensures PositionData(p)["coords"].fields["speedKph"] == Str("36 /kph")
    ensures PositionData(p)["coords"].fields["speedMph"] == Str("22 /mph")
  {
    assert RoundHalfUp(10.0 * KphPerMetrePerSecond) == 36;
    assert RoundHalfUp(10.0 * MphPerMetrePerSecond) == 22;
    assert Decimal(36) == "36";
    assert Decimal(22) == "22";
  }
}
