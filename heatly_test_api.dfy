/**
 * The remote client of the heatly_test integration: sensor posts, the schedule list with its
 * time-to-live cache, and the schedule selection post.
 */
module HeatlyTestApi {
  import opened Options
  import opened JsonValues
  import opened Strings
  import opened Http

  /** SCHEDULE_CACHE_SECONDS of the integration's configuration. */
  const ScheduleCacheSeconds: real := 600.0

  /** The client's cache fields: the last accepted schedule mapping and when it was fetched. */
  datatype ScheduleCache = ScheduleCache(schedules: Json, fetchedAt: real)

  /** One `get_available_schedules` call: the cache after it, what it returned, and the request it sent. */
  datatype Fetch = Fetch(cache: ScheduleCache, result: Json, sent: Option<Request>)

  /** A call at time `now` is answered from the cache. */
  predicate IsHit(c: ScheduleCache, now: real) {
    Truthy(c.schedules) && now - c.fetchedAt < ScheduleCacheSeconds
  }

  function SchedulesRequest(baseUrl: string): Request {
    Get(baseUrl + "/api/schedules")
  }

  /**
   * What a schedules response brings: the non-empty `schedules` member of a 200 response whose
   * body is an object. Anything else (an empty or missing member, another status, a body that is
   * not an object, a timeout, an error) brings nothing.
   */
  function FetchedSchedules(o: Outcome): (s: Option<Json>)
    ensures s.Some? ==> Truthy(s.value)
    ensures s.Some? <==> IsOk(o) && o.body.JObj? && Truthy(GetOr(o.body.fields, "schedules", JObj(map[])))
    ensures s.Some? ==> s.value == GetOr(o.body.fields, "schedules", JObj(map[]))
  {
    if IsOk(o) && o.body.JObj? then
      var schedules := GetOr(o.body.fields, "schedules", JObj(map[]));
      if Truthy(schedules) then Some(schedules) else None
    else
      None
  }

  /** `get_available_schedules` at time `now` against the cache `c`. */
  function FetchSchedules(c: ScheduleCache, baseUrl: string, now: real, net: Request -> Outcome): (f: Fetch)
    // A hit returns the cached mapping, sends nothing and changes nothing.
    ensures IsHit(c, now) ==> f == Fetch(c, c.schedules, None)
    // A miss sends exactly one GET for the schedule list.
    ensures !IsHit(c, now) ==> f.sent == Some(SchedulesRequest(baseUrl))
    // A miss answered with non-empty schedules replaces mapping and timestamp together.
    ensures !IsHit(c, now) && FetchedSchedules(net(SchedulesRequest(baseUrl))).Some? ==>
              var s := FetchedSchedules(net(SchedulesRequest(baseUrl))).value;
              f.cache == ScheduleCache(s, now) && f.result == s
    // Any other miss returns None and leaves both fields alone.
    ensures !IsHit(c, now) && FetchedSchedules(net(SchedulesRequest(baseUrl))).None? ==>
              f.cache == c && f.result == JNull
    // A non-empty cache never becomes empty.
    ensures Truthy(c.schedules) ==> Truthy(f.cache.schedules)
    // The result is None or the (non-empty) mapping now in the cache.
    ensures f.result == JNull || (Truthy(f.result) && f.result == f.cache.schedules)
  {
    if IsHit(c, now) then
      Fetch(c, c.schedules, None)
    else
      var req := SchedulesRequest(baseUrl);
      match FetchedSchedules(net(req))
      case Some(s) => Fetch(ScheduleCache(s, now), s, Some(req))
      case None => Fetch(c, JNull, Some(req))
  }

  /** The cache after a series of calls, each at its own time and against its own network. */
  function Replay(c: ScheduleCache, baseUrl: string, calls: seq<(real, Request -> Outcome)>): ScheduleCache
    decreases |calls|
  {
    if calls == [] then c
    else Replay(FetchSchedules(c, baseUrl, calls[0].0, calls[0].1).cache, baseUrl, calls[1..])
  }

  /** Once the cache holds schedules it holds schedules after any number of further calls. */
  lemma {:induction false} CacheStaysNonEmpty(c: ScheduleCache, baseUrl: string, calls: seq<(real, Request -> Outcome)>)
    requires Truthy(c.schedules)
    ensures Truthy(Replay(c, baseUrl, calls).schedules)
    decreases |calls|
  {
    if calls != [] {
      CacheStaysNonEmpty(FetchSchedules(c, baseUrl, calls[0].0, calls[0].1).cache, baseUrl, calls[1..]);
    }
  }

  /** The call `call` (a time and a network) answered with the mapping held by `c`, fetched at that time. */
  predicate Delivered(c: ScheduleCache, call: (real, Request -> Outcome), baseUrl: string) {
    FetchedSchedules(call.1(SchedulesRequest(baseUrl))) == Some(c.schedules) && c.fetchedAt == call.0
  }

  /** After a series of calls the cache is the starting one or one some response actually delivered. */
  lemma {:induction false} CacheComesFromResponses(c: ScheduleCache, baseUrl: string, calls: seq<(real, Request -> Outcome)>)
    ensures var r := Replay(c, baseUrl, calls);
            r == c || exists i :: 0 <= i < |calls| && Delivered(r, calls[i], baseUrl)
    decreases |calls|
  {
    if calls != [] {
      var c' := FetchSchedules(c, baseUrl, calls[0].0, calls[0].1).cache;
      CacheComesFromResponses(c', baseUrl, calls[1..]);
      var r := Replay(c', baseUrl, calls[1..]);
      assert r == Replay(c, baseUrl, calls);
      if r != c' {
        var i :| 0 <= i < |calls[1..]| && Delivered(r, calls[1..][i], baseUrl);
        assert calls[1..][i] == calls[i + 1];
      } else if c' != c {
        assert Delivered(r, calls[0], baseUrl);
      }
    }
  }

  class HeatlyApiClient {
    const roomId: string
    const baseUrl: string
    const url: string
    var availableSchedules: Json
    var lastScheduleFetch: real

    function Cache(): ScheduleCache
      reads this
    {
      ScheduleCache(availableSchedules, lastScheduleFetch)
    }

    constructor (roomId: string, apiUrl: string)
      ensures this.roomId == roomId
      ensures baseUrl == StripTrailing(apiUrl, '/')
      ensures baseUrl == [] || baseUrl[|baseUrl| - 1] != '/'
      ensures url == baseUrl + "/api/room/" + roomId
      ensures availableSchedules == JNull && lastScheduleFetch == 0.0
    {
      this.roomId := roomId;
      baseUrl := StripTrailing(apiUrl, '/');
      url := RoomUrl(StripTrailing(apiUrl, '/'), roomId);
      availableSchedules := JNull;
      lastScheduleFetch := 0.0;
    }

    /** The POST `send_sensor_data` issues. */
    function SensorRequest(temp: real, outdoor: Option<real>, now: real): (req: Request)
      ensures req.Post? && req.url == url + "/sensor"
      ensures req.payload == SensorPayload(temp, outdoor, now)
    {
      Post(url + "/sensor", SensorPayload(temp, outdoor, now))
    }

    /** `send_sensor_data`: the decoded body on status 200, None on any other status, a timeout or an error. */
    function SendSensorData(temp: real, outdoor: Option<real>, now: real, net: Request -> Outcome): (r: Json)
      ensures IsOk(net(SensorRequest(temp, outdoor, now))) ==> r == net(SensorRequest(temp, outdoor, now)).body
      ensures !IsOk(net(SensorRequest(temp, outdoor, now))) ==> r == JNull
    {
      match net(SensorRequest(temp, outdoor, now))
      case Status(code, body) => if code == 200 then body else JNull
      case Timeout => JNull
      case Error => JNull
    }

    method GetAvailableSchedules(now: real, net: Request -> Outcome) returns (r: Json, sent: Option<Request>)
      modifies this
      ensures Fetch(Cache(), r, sent) == FetchSchedules(old(Cache()), baseUrl, now, net)
    {
      if Truthy(availableSchedules) && now - lastScheduleFetch < ScheduleCacheSeconds {
        return availableSchedules, None;
      }
      var req := SchedulesRequest(baseUrl);
      sent := Some(req);
      var outcome := net(req);
      if outcome.Status? && outcome.code == 200 {
        if !outcome.body.JObj? {
          // `data.get` on a body that is not an object raises; the except clause returns None.
          return JNull, sent;
        }
        var schedules := GetOr(outcome.body.fields, "schedules", JObj(map[]));
        if Truthy(schedules) {
          availableSchedules := schedules;
          lastScheduleFetch := now;
          return availableSchedules, sent;
        }
        return JNull, sent;
      }
      return JNull, sent;
    }

    /** The POST `update_room_schedule` issues. */
    function ScheduleUpdateRequest(scheduleName: string): Request {
      Post(url + "/schedule", map["active_schedule" := JStr(scheduleName)])
    }

    /** `update_room_schedule`: True exactly when the post is answered with status 200. */
    function UpdateRoomSchedule(scheduleName: string, net: Request -> Outcome): (ok: bool)
      ensures ok <==> IsOk(net(ScheduleUpdateRequest(scheduleName)))
    {
      match net(ScheduleUpdateRequest(scheduleName))
      case Status(code, _) => code == 200
      case Timeout => false
      case Error => false
    }
  }

  /**
   * Schedules fetched at `t` serve every call before `t + 600` from the cache, with no request,
   * and a call from `t + 600` on goes to the network again.
   */
  lemma CacheLifetime(c: ScheduleCache, baseUrl: string, t: real, net: Request -> Outcome,
                      t2: real, net2: Request -> Outcome)
    requires !IsHit(c, t) && FetchedSchedules(net(SchedulesRequest(baseUrl))).Some?
    ensures var f := FetchSchedules(c, baseUrl, t, net);
            var g := FetchSchedules(f.cache, baseUrl, t2, net2);
            && (t2 < t + ScheduleCacheSeconds ==> g == Fetch(f.cache, f.cache.schedules, None))
            && (t2 >= t + ScheduleCacheSeconds ==> g.sent == Some(SchedulesRequest(baseUrl)))
  {
  }

  /** Different names post different requests, and a selection never posts to the sensor endpoint. */
  lemma ScheduleRequestIdentifiesName(client: HeatlyApiClient, name1: string, name2: string,
                                      temp: real, outdoor: Option<real>, now: real)
    ensures client.ScheduleUpdateRequest(name1) == client.ScheduleUpdateRequest(name2) <==> name1 == name2
    ensures client.ScheduleUpdateRequest(name1) != client.SensorRequest(temp, outdoor, now)
  {
    var u := client.url;
    if client.ScheduleUpdateRequest(name1) == client.ScheduleUpdateRequest(name2) {
      assert client.ScheduleUpdateRequest(name1).payload["active_schedule"] == JStr(name2);
    }
    assert (u + "/schedule")[|u| + 2] == 'c';
    assert (u + "/sensor")[|u| + 2] == 'e';
  }

  /** A fresh client's cache always misses: its first schedules call sends the GET for the list. */
  lemma FreshClientMisses(baseUrl: string, now: real, net: Request -> Outcome)
    ensures FetchSchedules(ScheduleCache(JNull, 0.0), baseUrl, now, net).sent == Some(SchedulesRequest(baseUrl))
  {
  }
}
