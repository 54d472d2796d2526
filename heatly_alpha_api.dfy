/** The remote client of the heatly-alpha integration: URL normalisation and sensor posts, no cache. */
module HeatlyAlphaApi {
  import opened Options
  import opened JsonValues
  import opened Strings
  import opened Http

  /** The client's fields, all set once by the constructor. */
  datatype HeatlyApiClient = HeatlyApiClient(roomId: string, baseUrl: string, url: string)

  function NewClient(roomId: string, apiUrl: string): (c: HeatlyApiClient)
    ensures c.roomId == roomId
    ensures c.baseUrl == StripTrailing(apiUrl, '/')
    ensures c.baseUrl == [] || c.baseUrl[|c.baseUrl| - 1] != '/'
    ensures c.url == c.baseUrl + "/api/room/" + roomId
  {
    var base := StripTrailing(apiUrl, '/');
    HeatlyApiClient(roomId, base, RoomUrl(base, roomId))
  }

  function SensorRequest(c: HeatlyApiClient, temp: real, outdoor: Option<real>, now: real): (req: Request)
    ensures req.Post? && req.url == c.url + "/sensor"
    ensures req.payload == SensorPayload(temp, outdoor, now)
  {
    Post(c.url + "/sensor", SensorPayload(temp, outdoor, now))
  }

  /** `send_sensor_data`: the decoded body on status 200; None on another status, a timeout or an error. */
  function SendSensorData(c: HeatlyApiClient, temp: real, outdoor: Option<real>, now: real, net: Request -> Outcome): (r: Json)
    ensures IsOk(net(SensorRequest(c, temp, outdoor, now))) ==> r == net(SensorRequest(c, temp, outdoor, now)).body
    ensures !IsOk(net(SensorRequest(c, temp, outdoor, now))) ==> r == JNull
  {
    match net(SensorRequest(c, temp, outdoor, now))
    case Status(code, body) => if code == 200 then body else JNull
    case Timeout => JNull
    case Error => JNull
  }
}
