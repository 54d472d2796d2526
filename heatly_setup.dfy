/**
 * The update dispatch of heatly's __init__.py: which readings are posted when the sensor
 * changes or the periodic tick fires, and when the response reaches the thermostat.
 */
module HeatlySetup {
  import opened Options
  import opened JsonValues
  import opened Hass
  import HeatlyClimate

  const ApiUrlKey: string := "api_url"

  /** `entry.data.get(CONF_API_URL, DEFAULT_API_URL)`. */
  function ApiUrl(data: map<string, string>, defaultUrl: string): (u: string)
    ensures ApiUrlKey in data ==> u == data[ApiUrlKey]
    ensures ApiUrlKey !in data ==> u == defaultUrl
  {
    GetOr(data, ApiUrlKey, defaultUrl)
  }

  /** The outdoor value: a configured (non-empty) sensor whose state is a reading that parses. */
  function OutdoorTemperature(outdoorSensorId: Option<string>, states: map<string, string>, parse: string -> Option<real>): (o: Option<real>)
    ensures o.Some? <==> && outdoorSensorId.Some? && outdoorSensorId.value != ""
                         && Readable(states, outdoorSensorId.value)
                         && parse(states[outdoorSensorId.value]).Some?
    ensures o.Some? ==> o == parse(states[outdoorSensorId.value])
  {
    if outdoorSensorId.Some? && outdoorSensorId.value != "" then
      var id := outdoorSensorId.value;
      if id in states && Available(states[id]) then parse(states[id]) else None
    else
      None
  }

  /** What `send_sensor_update` needs of its surroundings: an indoor reading parses, and the registry slot exists. */
  predicate CanUpdate<T>(sensorId: string, states: map<string, string>, parse: string -> Option<real>,
                         data: map<string, map<string, T>>, domain: string)
  {
    Readable(states, sensorId) ==> parse(states[sensorId]).Some? && domain in data
  }

  /**
   * `send_sensor_update`, also the whole of `periodic_update`: nothing without an indoor
   * reading; otherwise one post of the parsed reading and the outdoor value, and the response
   * forwarded when an entity is registered and the response is truthy.
   */
  function SendSensorUpdate<T>(sensorId: string, outdoorSensorId: Option<string>,
                               states: map<string, string>, parse: string -> Option<real>,
                               send: (real, Option<real>) -> Json,
                               data: map<string, map<string, T>>, domain: string): (u: Update)
    requires CanUpdate(sensorId, states, parse, data, domain)
    ensures u.Skipped? <==> !Readable(states, sensorId)
    ensures u.Sent? ==>
              && Some(u.indoor) == parse(states[sensorId])
              && u.outdoor == OutdoorTemperature(outdoorSensorId, states, parse)
              && u.response == send(u.indoor, u.outdoor)
              && (u.forwarded <==> EntityRegistered(data, domain) && Truthy(u.response))
  {
    if sensorId in states && Available(states[sensorId]) then
      var temp := parse(states[sensorId]).value;
      var outdoor := OutdoorTemperature(outdoorSensorId, states, parse);
      var response := send(temp, outdoor);
      Sent(temp, outdoor, response, ThermostatKey in data[domain] && Truthy(response))
    else
      Skipped
  }

  /** `sensor_changed`: an event whose new state is a reading runs the update; any other event does nothing. */
  function SensorChanged<T>(newState: Option<string>, sensorId: string, outdoorSensorId: Option<string>,
                            states: map<string, string>, parse: string -> Option<real>,
                            send: (real, Option<real>) -> Json,
                            data: map<string, map<string, T>>, domain: string): (u: Update)
    requires newState.Some? && Available(newState.value) ==> CanUpdate(sensorId, states, parse, data, domain)
    ensures !(newState.Some? && Available(newState.value)) ==> u == Skipped
    ensures newState.Some? && Available(newState.value) ==>
              u == SendSensorUpdate(sensorId, outdoorSensorId, states, parse, send, data, domain)
  {
    if newState.Some? && Available(newState.value) then
      SendSensorUpdate(sensorId, outdoorSensorId, states, parse, send, data, domain)
    else
      Skipped
  }

  /**
   * With only the client registered under its entry id, as this package's setup leaves the
   * registry, no update ever forwards its response to a thermostat.
   */
  lemma ClientOnlyRegistryNeverForwards<T>(sensorId: string, outdoorSensorId: Option<string>,
                                           states: map<string, string>, parse: string -> Option<real>,
                                           send: (real, Option<real>) -> Json,
                                           domain: string, entryId: string, client: T)
    requires entryId != ThermostatKey
    requires Readable(states, sensorId) ==> parse(states[sensorId]).Some?
    ensures var u := SendSensorUpdate(sensorId, outdoorSensorId, states, parse, send,
                                      Register(map[], domain, entryId, client), domain);
            u.Sent? ==> !u.forwarded
  {
  }

  /** The update posts exactly when the package's own thermostat reads a temperature, and posts that value. */
  lemma UpdateSendsEntityReading<T>(entity: HeatlyClimate.HeatlyThermostat, outdoorSensorId: Option<string>,
                                    states: map<string, string>, parse: string -> Option<real>,
                                    send: (real, Option<real>) -> Json,
                                    data: map<string, map<string, T>>, domain: string)
    requires CanUpdate(entity.sensorId, states, parse, data, domain)
    ensures var u := SendSensorUpdate(entity.sensorId, outdoorSensorId, states, parse, send, data, domain);
            && (u.Sent? <==> entity.CurrentTemperature(states, parse).Some?)
            && (u.Sent? ==> entity.CurrentTemperature(states, parse) == Some(u.indoor))
  {
  }
}
