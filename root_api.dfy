/** The first remote client: a fixed base URL and a sensor post without an outdoor value. */
module RootApi {
  import opened Options
  import opened JsonValues
  import opened Http

  datatype HeatlyApiClient = HeatlyApiClient(url: string)

  /** The base URL is the package constant BASE_URL, taken as it is (no trailing '/' removed). */
  function NewClient(baseUrl: string, roomId: string): (c: HeatlyApiClient)
    ensures c.url == baseUrl + "/api/room/" + roomId
  {
    HeatlyApiClient(RoomUrl(baseUrl, roomId))
  }

  function SensorRequest(c: HeatlyApiClient, temp: real, now: real): (req: Request)
    ensures req.Post? && req.url == c.url + "/sensor"
    ensures req.payload.Keys == {"temperature", "timestamp"}
    ensures req.payload["temperature"] == JReal(temp) && req.payload["timestamp"] == JInt(Trunc(now))
  {
    Post(c.url + "/sensor", SensorPayload(temp, None, now))
  }

  /** `send_sensor_data`: the body on status 200, otherwise None; every exception also gives None. */
  function SendSensorData(c: HeatlyApiClient, temp: real, now: real, net: Request -> Outcome): (r: Json)
    ensures IsOk(net(SensorRequest(c, temp, now))) ==> r == net(SensorRequest(c, temp, now)).body
    ensures !IsOk(net(SensorRequest(c, temp, now))) ==> r == JNull
  {
    var o := net(SensorRequest(c, temp, now));
    if o.Status? && o.code == 200 then o.body else JNull
  }
}
