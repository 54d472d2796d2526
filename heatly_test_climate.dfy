/**
 * The thermostat entity of heatly_test's climate.py: starts in HEAT, follows the heater state a
 * response reports, ignores falsy target temperatures, and has no exception guards.
 */
module HeatlyTestClimate {
  import opened Options
  import opened JsonValues
  import opened Strings
  import opened Hass

  class HeatlyThermostat {
    const sensorId: string
    const switchId: string
    const entryId: string
    const name: string
    const uniqueId: string
    const hvacModes: seq<HvacMode>
    const minTemp: real
    const maxTemp: real
    var hvacMode: HvacMode
    var targetTemperature: real
    var extraStateAttributes: map<string, Json>
    /** The service calls emitted so far, oldest first. */
    var calls: seq<ServiceCall>

    ghost predicate Valid()
      reads this
    {
      && targetTemperature != 0.0
      && AttributesShape(extraStateAttributes)
      && CallsTarget(calls, switchId)
    }

    /** The four-argument constructor the class declares. */
    constructor (config: map<string, string>, entryId: string)
      requires "temp_sensor" in config && "heater_switch" in config && "room_id" in config
      ensures Valid()
      ensures sensorId == config["temp_sensor"] && switchId == config["heater_switch"]
      ensures this.entryId == entryId
      ensures name == "Heatly " + config["room_id"] && uniqueId == "heatly_" + config["room_id"]
      ensures hvacModes == [Heat, Off] && minTemp == 5.0 && maxTemp == 35.0
      ensures hvacMode == Heat && targetTemperature == 20.0
      ensures extraStateAttributes == map[] && calls == []
    {
      sensorId := config["temp_sensor"];
      switchId := config["heater_switch"];
      this.entryId := entryId;
      name := "Heatly " + config["room_id"];
      uniqueId := "heatly_" + config["room_id"];
      hvacModes := [Heat, Off];
      hvacMode := Heat;
      targetTemperature := 20.0;
      minTemp := 5.0;
      maxTemp := 35.0;
      extraStateAttributes := map[];
      calls := [];
    }

    /**
     * A falsy response changes nothing. A truthy response that is not a dictionary raises from
     * `.get` before anything changes (`raised`). A dictionary sends one heater command, sets the
     * mode from the heater state and replaces the attributes.
     */
    method UpdateFromResponse(response: Json) returns (raised: bool)
      requires Valid()
      modifies this
      ensures Valid()
      ensures raised <==> Truthy(response) && !response.JObj?
      ensures !IsNonEmptyObject(response) ==> unchanged(this)
      ensures IsNonEmptyObject(response) ==>
                && calls == old(calls) + [HeaterCommand(switchId, HeaterState(response.fields))]
                && hvacMode == ModeForHeater(HeaterState(response.fields))
                && extraStateAttributes == ResponseAttributes(response.fields)
                && targetTemperature == old(targetTemperature)
    {
      if !Truthy(response) {
        return false;
      }
      if !response.JObj? {
        return true;
      }
      var heaterState := HeaterState(response.fields);
      SetHeaterState(heaterState);
      hvacMode := ModeForHeater(heaterState);
      extraStateAttributes := ResponseAttributes(response.fields);
      raised := false;
    }

    /** The `current_temperature` property; `float()` is not guarded, so a reading must parse. */
    function CurrentTemperature(states: map<string, string>, parse: string -> Option<real>): (t: Option<real>)
      requires Readable(states, sensorId) ==> parse(states[sensorId]).Some?
      ensures t.Some? <==> Readable(states, sensorId)
      ensures t.Some? ==> t == parse(states[sensorId])
    {
      if sensorId in states && Available(states[sensorId]) then Some(parse(states[sensorId]).value) else None
    }

    /** `async_set_temperature(temperature=...)`: only a truthy value is stored, without clamping. */
    method SetTemperature(temperature: Option<real>)
      requires Valid()
      modifies this`targetTemperature
      ensures Valid()
      ensures targetTemperature == if TruthyTemperature(temperature) then temperature.value else old(targetTemperature)
    {
      if temperature.Some? && temperature.value != 0.0 {
        targetTemperature := temperature.value;
      }
    }

    /** `async_set_hvac_mode`: the mode is always stored; OFF also turns the heater off. */
    method SetHvacMode(mode: HvacMode)
      requires Valid()
      modifies this`hvacMode, this`calls
      ensures Valid()
      ensures hvacMode == mode
      ensures calls == old(calls) + (if mode == Off then [HeaterCommand(switchId, JStr("off"))] else [])
    {
      hvacMode := mode;
      if mode == Off {
        SetHeaterState(JStr("off"));
      }
    }

    /** `_set_heater_state`: one call, `turn_on` for "on" and `turn_off` otherwise, to the switch's domain. */
    method SetHeaterState(state: Json)
      requires Valid()
      modifies this`calls
      ensures Valid()
      ensures calls == old(calls) + [HeaterCommand(switchId, state)]
    {
      calls := calls + [HeaterCommand(switchId, state)];
    }
  }
}
