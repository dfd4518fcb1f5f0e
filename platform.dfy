/** The browser as the sensor code sees it: which names are present on
    `window`, `navigator` and `navigator.credentials`, and what constructing
    a Generic Sensor API type does. Everything else the host does (promise
    settlement, sensor readings, position updates, battery events) reaches
    the model as calls of the event handlers of `Sensors.Page`. */
module Platform {
  import opened Values

  /** What `new window[sensorType]()` and the `start()` after it do: both
      succeed, the constructor throws, or the sensor is built and its
      listeners added but `start()` throws. Errors are known by `name`. */
  datatype Construction = Constructs | Throws(errorName: string) | StartThrows(errorName: string)

  datatype Host = Host(
    window: set<string>,                // names for which `name in window` holds
    navigator: set<string>,             // names for which `name in navigator` holds
    credentials: Option<set<string>>,   // `navigator.credentials`: its names when it is an object
    construct: string -> Construction)  // `new window[sensorType]()`, then `start()`
}
