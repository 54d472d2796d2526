/**
 * The earliest thermostat entity (heatly's climate.py): a response only drives the heater and
 * the attributes, never the mode or the target; the target is stored as given, None included.
 */
module HeatlyClimate {
  import opened Options
  import opened JsonValues
  import opened Strings
  import opened Hass

  class HeatlyThermostat {
    const sensorId: string
    const switchId: string
    const name: string
    const uniqueId: string
    const hvacModes: seq<HvacMode>
    /** Not set by the constructor; None stands for unset. */
    var hvacMode: Option<HvacMode>
    var targetTemperature: Option<real>
    var extraStateAttributes: map<string, Json>
    /** The service calls emitted so far, oldest first. */
    var calls: seq<ServiceCall>

    ghost predicate Valid()
      reads this
    {
      AttributesShape(extraStateAttributes) && CallsTarget(calls, switchId)
    }

    constructor (config: map<string, string>)
      requires "temp_sensor" in config && "heater_switch" in config && "room_id" in config
      ensures Valid()
      ensures sensorId == config["temp_sensor"] && switchId == config["heater_switch"]
      ensures name == "Heatly " + config["room_id"] && uniqueId == "heatly_" + config["room_id"]
      ensures hvacModes == [Heat, Off]
      ensures hvacMode == None && targetTemperature == Some(20.0)
      ensures extraStateAttributes == map[] && calls == []
    {
      sensorId := config["temp_sensor"];
      switchId := config["heater_switch"];
      name := "Heatly " + config["room_id"];
      uniqueId := "heatly_" + config["room_id"];
      hvacModes := [Heat, Off];
      hvacMode := None;
      targetTemperature := Some(20.0);
      extraStateAttributes := map[];
      calls := [];
    }

    /**
     * A falsy response changes nothing; a truthy non-dictionary raises from `.get` before
     * anything changes. A dictionary sends one heater command and replaces the attributes;
     * mode and target stay as they were.
     */
    method UpdateFromResponse(response: Json) returns (raised: bool)
      requires Valid()
      modifies this`calls, this`extraStateAttributes
      ensures Valid()
      ensures raised <==> Truthy(response) && !response.JObj?
      ensures hvacMode == old(hvacMode) && targetTemperature == old(targetTemperature)
      ensures !IsNonEmptyObject(response) ==> unchanged(this)
      ensures IsNonEmptyObject(response) ==>
                && calls == old(calls) + [HeaterCommand(switchId, HeaterState(response.fields))]
                && extraStateAttributes == ResponseAttributes(response.fields)
    {
      if !Truthy(response) {
        return false;
      }
      if !response.JObj? {
        return true;
      }
      var heaterState := HeaterState(response.fields);
      SetHeaterState(heaterState);
      extraStateAttributes := ResponseAttributes(response.fields);
      raised := false;
    }

    /** `current_temperature()`; `float()` is not guarded, so a reading must parse. */
    function CurrentTemperature(states: map<string, string>, parse: string -> Option<real>): (t: Option<real>)
      requires Readable(states, sensorId) ==> parse(states[sensorId]).Some?
      ensures t.Some? <==> Readable(states, sensorId)
      ensures t.Some? ==> t == parse(states[sensorId])
    {
      if sensorId in states && Available(states[sensorId]) then Some(parse(states[sensorId]).value) else None
    }

    /** `async_set_temperature(temperature=...)`: the value is stored as given, None included. */
    method SetTemperature(temperature: Option<real>)
      requires Valid()
      modifies this`targetTemperature
      ensures Valid()
      ensures targetTemperature == temperature
    {
      targetTemperature := temperature;
    }

    /** `async_set_hvac_mode`: the mode is always stored; OFF also turns the heater off. */
    method SetHvacMode(mode: HvacMode)
      requires Valid()
      modifies this`hvacMode, this`calls
      ensures Valid()
      ensures hvacMode == Some(mode)
      ensures calls == old(calls) + (if mode == Off then [HeaterCommand(switchId, JStr("off"))] else [])
    {
      hvacMode := Some(mode);
      if mode == Off {
        SetHeaterState(JStr("off"));
      }
    }

    /** `_set_heater_state`: one call, `turn_on` for "on" and `turn_off` otherwise, to the switch's domain. */
    method SetHeaterState(state: Json)
      requires Valid()
      modifies this`calls
      ensures Valid()
      ensures calls == old(calls) + [HeaterCommand(switchId, state)]
    {
      calls := calls + [HeaterCommand(switchId, state)];
    }
  }
}
