/** The telemetry wire contract: one reading of one device, and the schema it must meet. */
module Readings {
  /** A reading; its timestamp is in milliseconds since the epoch. */
  datatype Reading = Reading(
    deviceId: string,
    timestampMs: int,
    temp: real,
    humidity: real,
    battery: real,
    lat: real,
    lon: real)

  datatype Metric = Temp | Humidity | Battery

  function MetricValue(t: Reading, metric: Metric): real {
    match metric
    case Temp => t.temp
    case Humidity => t.humidity
    case Battery => t.battery
  }

  const MAX_DEVICE_ID_LENGTH := 64

  /** The ranges every admitted reading meets. */
  predicate MeetsSchema(t: Reading) {
    && 1 <= |t.deviceId| <= MAX_DEVICE_ID_LENGTH
    && -60.0 <= t.temp <= 150.0
    && 0.0 <= t.humidity <= 100.0
    && 0.0 <= t.battery <= 100.0
    && -90.0 <= t.lat <= 90.0
    && -180.0 <= t.lon <= 180.0
  }

  /** A device id that fits into one topic level and meets the schema. */
  predicate AdmissibleId(d: string) {
    1 <= |d| <= MAX_DEVICE_ID_LENGTH && '/' !in d
  }

  /** The readings that can get through the gate, from some topic. */
  predicate Admissible(t: Reading) {
    MeetsSchema(t) && AdmissibleId(t.deviceId)
  }

  /** The devices of a stream. */
  function DevicesOf(rs: seq<Reading>): set<string> {
    set k | 0 <= k < |rs| :: rs[k].deviceId
  }

  /** The readings of one device, in arrival order. */
  function OfDevice(rs: seq<Reading>, d: string): seq<Reading> {
    if rs == [] then []
    else
      var init := OfDevice(rs[..|rs| - 1], d);
      var last := rs[|rs| - 1];
      if last.deviceId == d then init + [last] else init
  }
}
