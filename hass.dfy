/**
 * What the integration sees of its host: entity states, the service calls it emits, the
 * shared registry dictionary, and the pieces of response handling every thermostat variant shares.
 */
module Hass {
  import opened Options
  import opened JsonValues
  import opened Strings

  /** The host's HVAC mode enumeration. */
  datatype HvacMode = Off | Heat | Cool | HeatCool | Auto | Dry | FanOnly

  datatype Service = TurnOn | TurnOff

  /** `hass.services.async_call(domain, service, {"entity_id": entityId})`. */
  datatype ServiceCall = ServiceCall(domain: string, service: Service, entityId: string)

  /** A state value other than the host's two placeholders for "no reading". */
  predicate Available(s: string) {
    s != "unknown" && s != "unavailable"
  }

  /** The entity `id` has a state and that state is a reading. */
  predicate Readable(states: map<string, string>, id: string) {
    id in states && Available(states[id])
  }

  /** The call `_set_heater_state(state)` emits for the heater entity `switchId`. */
  function HeaterCommand(switchId: string, state: Json): (c: ServiceCall)
    ensures c.service == TurnOn <==> state == JStr("on")
    ensures c.entityId == switchId
    ensures c.domain <= switchId && '.' !in c.domain
    ensures |c.domain| < |switchId| ==> switchId[|c.domain|] == '.'
  {
    ServiceCall(DomainOf(switchId), if state == JStr("on") then TurnOn else TurnOff, switchId)
  }

  /** Every call in the log goes to `switchId`, under the domain its id names. */
  predicate CallsTarget(calls: seq<ServiceCall>, switchId: string) {
    forall i :: 0 <= i < |calls| ==> calls[i].entityId == switchId && calls[i].domain == DomainOf(switchId)
  }

  /** `response.get("heater_state", "off")`. */
  function HeaterState(response: map<string, Json>): Json {
    GetOr(response, "heater_state", JStr("off"))
  }

  /**
   * A response turns the heater on, and sets HEAT, exactly when it reports `heater_state` as
   * `"on"`; a response without that key turns the heater off.
   */
  lemma HeaterOnExactlyWhenReported(switchId: string, response: map<string, Json>)
    ensures HeaterCommand(switchId, HeaterState(response)).service == TurnOn <==>
              "heater_state" in response && response["heater_state"] == JStr("on")
    ensures ModeForHeater(HeaterState(response)) == Heat <==>
              "heater_state" in response && response["heater_state"] == JStr("on")
    ensures "heater_state" !in response ==> HeaterCommand(switchId, HeaterState(response)).service == TurnOff
  {
  }

  /** The mode a response sets in the variants that follow the heater: HEAT exactly for "on". */
  function ModeForHeater(state: Json): (m: HvacMode)
    ensures m == Heat <==> state == JStr("on")
    ensures m == Off <==> state != JStr("on")
  {
    if state == JStr("on") then Heat else Off
  }

  const AttributeKeys: set<string> := {"trajectory", "strategy", "prediction_age"}

  /** The extra state attributes stored from a response. */
  function ResponseAttributes(response: map<string, Json>): (a: map<string, Json>)
    ensures a.Keys == AttributeKeys
    ensures a["trajectory"] == GetOr(response, "trajectory", JArr([]))
    ensures a["strategy"] == GetOr(response, "strategy", JObj(map[]))
    ensures a["prediction_age"] == GetOr(response, "prediction_age_seconds", JInt(0))
  {
    map[
      "trajectory" := GetOr(response, "trajectory", JArr([])),
      "strategy" := GetOr(response, "strategy", JObj(map[])),
      "prediction_age" := GetOr(response, "prediction_age_seconds", JInt(0))
    ]
  }

  /** The attributes are the initial empty dictionary or exactly the three response keys. */
  predicate AttributesShape(a: map<string, Json>) {
    a == map[] || a.Keys == AttributeKeys
  }

  /** `if temp:` on the value of the temperature keyword: None and 0.0 are false. */
  predicate TruthyTemperature(t: Option<real>) {
    t.Some? && t.value != 0.0
  }

  /** `if temp:` is Python truthiness of the keyword's value, None or a float. */
  lemma TruthyTemperatureIsTruthy(t: Option<real>)
    ensures TruthyTemperature(t) <==> Truthy(if t.None? then JNull else JReal(t.value))
  {
  }

  /**
   * An entity is readable exactly when the host last wrote a state other than the two
   * placeholders for it; one with no state is not, and writes to other entities do not matter.
   */
  lemma ReadableAfterStateWrite(states: map<string, string>, id: string, v: string, other: string)
    ensures Readable(states[id := v], id) <==> v !in ["unknown", "unavailable"]
    ensures !Readable(states - {id}, id)
    ensures other != id ==> Readable(states[other := v], id) == Readable(states, id)
  {
  }

  /** The key under which a thermostat entity is looked up in the integration's registry. */
  const ThermostatKey: string := "thermostat_entity"

  /** `hass.data.setdefault(domain, {})[key] = v`. */
  function Register<T>(data: map<string, map<string, T>>, domain: string, key: string, v: T): (r: map<string, map<string, T>>)
    ensures r.Keys == data.Keys + {domain}
    ensures key in r[domain] && r[domain][key] == v
    ensures r[domain].Keys == (if domain in data then data[domain].Keys else {}) + {key}
    ensures forall k :: domain in data && k in data[domain] && k != key ==> r[domain][k] == data[domain][k]
    ensures forall d :: d in data && d != domain ==> r[d] == data[d]
  {
    var inner := if domain in data then data[domain] else map[];
    data[domain := inner[key := v]]
  }

  /** `hass.data[domain].get("thermostat_entity")` finds an entity. */
  predicate EntityRegistered<T>(data: map<string, map<string, T>>, domain: string)
    requires domain in data
  {
    ThermostatKey in data[domain]
  }

  /** Storing a client under an entry id leaves the thermostat lookup as it was. */
  lemma RegisterKeepsEntityLookup<T>(data: map<string, map<string, T>>, domain: string, key: string, v: T)
    requires domain in data && key != ThermostatKey
    ensures EntityRegistered(Register(data, domain, key, v), domain) == EntityRegistered(data, domain)
  {
  }

  /**
   * The lookup finds an entity once one is stored under the thermostat key, and a registry
   * that holds only a client under an entry id finds none.
   */
  lemma RegisteredExactlyUnderThermostatKey<T>(data: map<string, map<string, T>>, domain: string,
                                               entity: T, entryId: string, client: T)
    ensures EntityRegistered(Register(data, domain, ThermostatKey, entity), domain)
    ensures entryId != ThermostatKey ==> !EntityRegistered(Register(map[], domain, entryId, client), domain)
  {
  }

  /** What one sensor update did: nothing, or a post with its values, its response, and whether it was forwarded. */
  datatype Update =
    | Skipped
    | Sent(indoor: real, outdoor: Option<real>, response: Json, forwarded: bool)
}
