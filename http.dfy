/**
 * The remote control plane as seen by the clients: requests they build, and the outcome of
 * one exchange (an HTTP status with its decoded body, the 10-second timeout, or any other
 * transport or decoding error). The network itself is a function parameter `net`.
 */
module Http {
  import opened Options
  import opened JsonValues

  datatype Request =
    | Post(url: string, payload: map<string, Json>)
    | Get(url: string)

  datatype Outcome =
    | Status(code: int, body: Json)
    | Timeout
    | Error

  predicate IsOk(o: Outcome) {
    o.Status? && o.code == 200
  }

  /** `int(x)` on a float: truncation toward zero. */
  function Trunc(x: real): (n: int)
    ensures 0.0 <= x ==> n as real <= x < n as real + 1.0
    ensures x < 0.0 ==> n as real - 1.0 < x <= n as real
  {
    if 0.0 <= x then x.Floor else -((-x).Floor)
  }

  /** `f"{base}/api/room/{room_id}"`. */
  function RoomUrl(base: string, roomId: string): string {
    base + "/api/room/" + roomId
  }

  /** The body of a sensor post: temperature, an integer timestamp and, when given, the outdoor value. */
  function SensorPayload(temp: real, outdoor: Option<real>, now: real): (p: map<string, Json>)
    ensures "temperature" in p && p["temperature"] == JReal(temp)
    ensures "timestamp" in p && p["timestamp"] == JInt(Trunc(now))
    ensures "outdoor_temp" in p <==> outdoor.Some?
    ensures outdoor.Some? ==> p["outdoor_temp"] == JReal(outdoor.value)
    ensures p.Keys <= {"temperature", "timestamp", "outdoor_temp"}
  {
    var p := map["temperature" := JReal(temp), "timestamp" := JInt(Trunc(now))];
    if outdoor.Some? then p["outdoor_temp" := JReal(outdoor.value)] else p
  }
}
