/** The first integration setup (the top-level __init__.py): client registration and the sensor-change handler. */
module RootSetup {
  import opened Options
  import opened JsonValues
  import opened Hass

  /**
   * `sensor_changed`: an event whose new state is a reading posts its parsed value once (there is
   * no outdoor value); the response is forwarded when an entity is registered and it is truthy.
   */
  function SensorChanged<T>(newState: Option<string>, parse: string -> Option<real>, send: real -> Json,
                            data: map<string, map<string, T>>, domain: string): (u: Update)
    requires newState.Some? && Available(newState.value) ==> parse(newState.value).Some? && domain in data
    ensures u.Skipped? <==> !(newState.Some? && Available(newState.value))
    ensures u.Sent? ==>
              && Some(u.indoor) == parse(newState.value)
              && u.outdoor == None
              && u.response == send(u.indoor)
              && (u.forwarded <==> EntityRegistered(data, domain) && Truthy(u.response))
  {
    if newState.Some? && Available(newState.value) then
      var temp := parse(newState.value).value;
      var response := send(temp);
      Sent(temp, None, response, ThermostatKey in data[domain] && Truthy(response))
    else
      Skipped
  }

  /** Registering the client neither creates nor hides a thermostat entry, unless its id is the thermostat key. */
  lemma SetupKeepsForwarding<T>(data: map<string, map<string, T>>, domain: string, entryId: string, client: T,
                                newState: Option<string>, parse: string -> Option<real>, send: real -> Json)
    requires domain in data && entryId != ThermostatKey
    requires newState.Some? && Available(newState.value) ==> parse(newState.value).Some?
    ensures SensorChanged(newState, parse, send, Register(data, domain, entryId, client), domain)
            == SensorChanged(newState, parse, send, data, domain)
  {
    RegisterKeepsEntityLookup(data, domain, entryId, client);
  }
}
