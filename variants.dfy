/** How the successive versions of the client and the thermostat relate to one another. */
module Variants {
  import opened Options
  import opened JsonValues
  import opened Strings
  import opened Http
  import opened Hass
  import HeatlyTestApi
  import HeatlyAlphaApi
  import RootApi
  import HeatlyTestEntity
  import HeatlyTestClimate
  import HeatlyClimate

  /** Wherever the unguarded readings are defined, the guarded one of heatly_test's __init__.py agrees with both. */
  lemma GuardedReadingExtendsUnguarded(a: HeatlyTestEntity.HeatlyThermostat, b: HeatlyTestClimate.HeatlyThermostat,
                                       c: HeatlyClimate.HeatlyThermostat,
                                       states: map<string, string>, parse: string -> Option<real>)
    requires a.sensorId == b.sensorId == c.sensorId
    requires Readable(states, a.sensorId) ==> parse(states[a.sensorId]).Some?
    ensures a.CurrentTemperature(states, parse) == b.CurrentTemperature(states, parse)
    ensures a.CurrentTemperature(states, parse) == c.CurrentTemperature(states, parse)
  {
  }

  /** The guarded reading is also defined where the unguarded ones would raise: it is None there. */
  lemma GuardedReadingOnUnparseable(a: HeatlyTestEntity.HeatlyThermostat, states: map<string, string>, parse: string -> Option<real>)
    requires Readable(states, a.sensorId) && parse(states[a.sensorId]).None?
    ensures a.CurrentTemperature(states, parse) == None
  {
  }

  /** The heatly_test client posts what the alpha client posts, and reads the answer alike. */
  lemma TestClientAgreesWithAlpha(a: HeatlyTestApi.HeatlyApiClient, roomId: string, apiUrl: string,
                                  temp: real, outdoor: Option<real>, now: real, net: Request -> Outcome)
    requires a.roomId == roomId && a.baseUrl == StripTrailing(apiUrl, '/') && a.url == a.baseUrl + "/api/room/" + roomId
    ensures a.SensorRequest(temp, outdoor, now) == HeatlyAlphaApi.SensorRequest(HeatlyAlphaApi.NewClient(roomId, apiUrl), temp, outdoor, now)
    ensures a.SendSensorData(temp, outdoor, now, net) == HeatlyAlphaApi.SendSensorData(HeatlyAlphaApi.NewClient(roomId, apiUrl), temp, outdoor, now, net)
  {
  }

  /** Trailing slashes on the configured URL do not change where the alpha client posts. */
  lemma {:induction false} AlphaIgnoresTrailingSlashes(roomId: string, base: string, k: nat)
    requires base == [] || base[|base| - 1] != '/'
    ensures HeatlyAlphaApi.NewClient(roomId, base + Repeat('/', k)) == HeatlyAlphaApi.NewClient(roomId, base)
  {
    StripTrailingAppended(base, '/', k);
    StripTrailingAppended(base, '/', 0);
    assert base + Repeat('/', 0) == base;
  }

  /** For a base URL without a trailing '/', the first client is the alpha client with no outdoor value. */
  lemma RootAgreesWithAlpha(base: string, roomId: string, temp: real, now: real, net: Request -> Outcome)
    requires base == [] || base[|base| - 1] != '/'
    ensures RootApi.SensorRequest(RootApi.NewClient(base, roomId), temp, now)
            == HeatlyAlphaApi.SensorRequest(HeatlyAlphaApi.NewClient(roomId, base), temp, None, now)
    ensures RootApi.SendSensorData(RootApi.NewClient(base, roomId), temp, now, net)
            == HeatlyAlphaApi.SendSensorData(HeatlyAlphaApi.NewClient(roomId, base), temp, None, now, net)
  {
  }

  /** With a trailing '/', the first client's room URL keeps a doubled slash, and the alpha client's URL differs. */
  lemma RootKeepsTrailingSlash(base: string, roomId: string)
    requires base != [] && base[|base| - 1] == '/'
    ensures RootApi.NewClient(base, roomId).url[|base| - 1..|base| + 1] == "//"
    ensures HeatlyAlphaApi.NewClient(roomId, base).url != RootApi.NewClient(base, roomId).url
  {
    var root := RootApi.NewClient(base, roomId).url;
    var alpha := HeatlyAlphaApi.NewClient(roomId, base);
    assert root[|base| - 1] == '/' && root[|base|] == '/';
    assert |alpha.baseUrl| < |base|;
    assert |alpha.url| < |root|;
  }
}
