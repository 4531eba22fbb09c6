/**
 * The `GET /weather` route: parameter validation, a per-client sliding-window
 * rate limiter, a TTL response cache and the normalisation of the upstream hourly
 * arrays into readings for the alert engine.
 *
 * The two module-level maps of the route (`rateLimit` and `cache`) are the fields
 * of class WeatherRouter; the pure parts are functions over values.
 */
module WeatherRoute {
  import opened Wrappers
  import opened OpenMeteo
  import opened Text

  const RateLimit: nat := 20                // requests per window
  const RateLimitWindow: int := 60 * 1000   // one minute, in milliseconds
  const CacheTtl: int := 10 * 60 * 1000     // ten minutes, in milliseconds

  const MissingCoordinatesMessage := "Latitude and longitude parameters are required"
  const InvalidCoordinatesMessage := "Invalid latitude or longitude values"
  const InvalidHoursMessage := "Hours parameter must be between 1 and 168"
  const RateLimitedMessage := "Too many requests. Please try again in a minute."
  const FetchFailedMessage := "Failed to fetch weather data"
  /** What a TypeError inside the handler's try block reports (reading a field of `undefined`). */
  const MissingFieldMessage := "Cannot read properties of undefined"

  // ---------------------------------------------------------------------------
  // Sliding-window rate limiter
  // ---------------------------------------------------------------------------

  /** The instants of `times` strictly after `windowStart`, in their original order. */
  function Recent(times: seq<int>, windowStart: int): (r: seq<int>)
    ensures |r| <= |times|
    ensures forall t :: t in r <==> t in times && t > windowStart
    ensures forall t :: multiset(r)[t] == if t > windowStart then multiset(times)[t] else 0
    decreases |times|
  {
    if times == [] then []
    else
      var n := |times| - 1;
      assert times == times[..n] + [times[n]];
      assert multiset(times) == multiset(times[..n]) + multiset{times[n]};
      var init := Recent(times[..n], windowStart);
      if times[n] > windowStart then init + [times[n]] else init
  }

  /** The number of positions of `times` holding an instant strictly after `windowStart`. */
  function CountRecent(times: seq<int>, windowStart: int): nat
  {
    |set i | 0 <= i < |times| && times[i] > windowStart|
  }

  /** Pruning keeps exactly the positions counted by CountRecent. */
  lemma {:induction false} RecentCount(times: seq<int>, windowStart: int)
    ensures |Recent(times, windowStart)| == CountRecent(times, windowStart)
    decreases |times|
  {
    if times != [] {
      var n := |times| - 1;
      var prefix := times[..n];
      RecentCount(prefix, windowStart);
      var before := set i | 0 <= i < n && prefix[i] > windowStart;
      var all := set i | 0 <= i < |times| && times[i] > windowStart;
      assert before == set i | 0 <= i < |prefix| && prefix[i] > windowStart;
      if times[n] > windowStart {
        assert all == before + {n};
      } else {
        assert all == before;
      }
    }
  }

  /** Pruning a list whose instants are all inside the window keeps it whole. */
  lemma {:induction false} RecentKeepsAll(times: seq<int>, windowStart: int)
    requires forall i :: 0 <= i < |times| ==> times[i] > windowStart
    ensures Recent(times, windowStart) == times
    decreases |times|
  {
    if times != [] {
      var n := |times| - 1;
      RecentKeepsAll(times[..n], windowStart);
      assert times == times[..n] + [times[n]];
    }
  }

  /** The list stored for `ip`, or the empty list when there is none (`rateLimit.get(ip) || []`). */
  function Stored(m: map<string, seq<int>>, ip: string): (times: seq<int>)
    ensures ip in m ==> times == m[ip]
    ensures ip !in m ==> times == []
  {
    if ip in m then m[ip] else []
  }

  datatype RateDecision = RateDecision(admitted: bool, stored: seq<int>)

  /** One admission check of a client whose stored instants are `stored`, at instant `now`. */
  function RateCheck(stored: seq<int>, now: int): (d: RateDecision)
    ensures d.admitted <==> CountRecent(stored, now - RateLimitWindow) < RateLimit
    ensures !d.admitted ==> d.stored == stored
    ensures d.admitted ==> d.stored == Recent(stored, now - RateLimitWindow) + [now]
    ensures d.admitted ==> |d.stored| <= RateLimit
    ensures d.admitted ==> forall t :: t in d.stored ==> t > now - RateLimitWindow
  {
    RecentCount(stored, now - RateLimitWindow);
    var recent := Recent(stored, now - RateLimitWindow);
    if |recent| >= RateLimit then RateDecision(false, stored)
    else RateDecision(true, recent + [now])
  }

  /** Replays a burst of checks by one client, starting from the list `stored`. */
  function Replay(stored: seq<int>, instants: seq<int>): (admitted: seq<bool>)
    ensures |admitted| == |instants|
    decreases |instants|
  {
    if instants == [] then []
    else
      var d := RateCheck(stored, instants[0]);
      [d.admitted] + Replay(d.stored, instants[1..])
  }

  /** Pruning a list whose instants are all outside the window empties it. */
  lemma {:induction false} RecentDropsAll(times: seq<int>, windowStart: int)
    requires forall i :: 0 <= i < |times| ==> times[i] <= windowStart
    ensures Recent(times, windowStart) == []
    decreases |times|
  {
    if times != [] {
      RecentDropsAll(times[..|times| - 1], windowStart);
    }
  }

  /** The k-th request of a burst inside one window, after the k earlier ones were admitted. */
  lemma BurstStep(instants: seq<int>, k: nat)
    requires |instants| == RateLimit + 1 && k <= RateLimit
    requires forall i :: 0 <= i < |instants| ==> instants[0] <= instants[i] <= instants[RateLimit]
    requires instants[RateLimit] - instants[0] < RateLimitWindow
    ensures RateCheck(instants[..k], instants[k]) ==
            if k < RateLimit then RateDecision(true, instants[..k + 1]) else RateDecision(false, instants[..k])
  {
    var prefix := instants[..k];
    var start := instants[k] - RateLimitWindow;
    assert forall i :: 0 <= i < |prefix| ==> prefix[i] == instants[i] > start;
    RecentKeepsAll(prefix, start);
    assert prefix + [instants[k]] == instants[..k + 1];
  }

  /** One step of a replay: the first check, then the rest from the list it leaves. */
  lemma ReplayCons(stored: seq<int>, instants: seq<int>)
    requires instants != []
    ensures Replay(stored, instants) ==
            [RateCheck(stored, instants[0]).admitted] + Replay(RateCheck(stored, instants[0]).stored, instants[1..])
  {
  }

  /** Replaying the burst from its k-th request, with the k earlier ones admitted and stored. */
  lemma {:induction false} BurstFrom(instants: seq<int>, k: nat)
    requires |instants| == RateLimit + 1 && k <= RateLimit
    requires forall i :: 0 <= i < |instants| ==> instants[0] <= instants[i] <= instants[RateLimit]
    requires instants[RateLimit] - instants[0] < RateLimitWindow
    ensures Replay(instants[..k], instants[k..]) == seq(RateLimit - k, _ => true) + [false]
    decreases RateLimit - k
  {
    var rest := instants[k..];
    ReplayCons(instants[..k], rest);
    BurstStep(instants, k);
    assert rest[0] == instants[k];
    if k < RateLimit {
      assert rest[1..] == instants[k + 1..];
      BurstFrom(instants, k + 1);
      var tail := seq(RateLimit - (k + 1), _ => true) + [false];
      assert Replay(instants[..k], rest) == [true] + tail;
      assert [true] + tail == seq(RateLimit - k, _ => true) + [false];
    } else {
      assert rest[1..] == [];
      assert Replay(instants[..k], rest) == [false] + Replay(instants[..k], []);
    }
  }

  /**
   * Within one window, a client starting from nothing has its first twenty
   * requests admitted and the twenty-first denied.
   */
  lemma TwentyFirstRequestDenied(instants: seq<int>)
    requires |instants| == RateLimit + 1
    requires forall i, j :: 0 <= i <= j < |instants| ==> instants[i] <= instants[j]
    requires instants[RateLimit] - instants[0] < RateLimitWindow
    ensures Replay([], instants) == seq(RateLimit, _ => true) + [false]
  {
    BurstFrom(instants, 0);
    assert instants[..0] == [] && instants[0..] == instants;
  }

  /** Once every stored instant is a full window old, the next request is admitted and starts afresh. */
  lemma {:induction false} AdmittedAfterWindowElapses(stored: seq<int>, now: int)
    requires forall i :: 0 <= i < |stored| ==> stored[i] <= now - RateLimitWindow
    ensures RateCheck(stored, now) == RateDecision(true, [now])
  {
    RecentDropsAll(stored, now - RateLimitWindow);
  }

  // ---------------------------------------------------------------------------
  // Response cache
  // ---------------------------------------------------------------------------

  /** An element of the list the alert engine returns. The source of the engine is not modelled. */
  type Alert

  /** One normalised hour; a field is `null` for a JSON null and `undefined` past the end of its array. */
  datatype Reading = Reading(time: string, temperature: Element, precipitation: Element, windSpeed: Element, relativeHumidity: Element)

  /** The JSON body of a successful response. */
  datatype ResponseData = ResponseData(
    latitude: Value, longitude: Value, elevation: Value,
    hourly: Hourly, alerts: seq<Alert>, generatedAt: string, cacheHit: bool)

  datatype CacheEntry = CacheEntry(data: ResponseData, timestamp: int)

  /** A lookup: a hit when there is an entry and it is younger than the TTL. */
  function CacheLookup(entries: map<string, CacheEntry>, key: string, now: int): (hit: Option<ResponseData>)
    ensures hit.Some? <==> key in entries && now - entries[key].timestamp < CacheTtl
    ensures hit.Some? ==> hit.value == entries[key].data
  {
    if key in entries && now - entries[key].timestamp < CacheTtl then Some(entries[key].data) else None
  }

  /** A store: the entry for `key` is replaced, never merged. */
  function CacheStore(entries: map<string, CacheEntry>, key: string, data: ResponseData, now: int): (stored: map<string, CacheEntry>)
    ensures stored.Keys == entries.Keys + {key}
    ensures stored[key] == CacheEntry(data, now)
    ensures forall k :: k in entries && k != key ==> stored[k] == entries[k]
  {
    entries[key := CacheEntry(data, now)]
  }

  /** Reading back a key after storing it: the stored data until the TTL runs out, then a miss; other keys are unaffected. */
  lemma LookupAfterStore(entries: map<string, CacheEntry>, key: string, data: ResponseData, storedAt: int, other: string, now: int)
    ensures CacheLookup(CacheStore(entries, key, data, storedAt), key, now) ==
            (if now - storedAt < CacheTtl then Some(data) else None)
    ensures other != key ==>
            CacheLookup(CacheStore(entries, key, data, storedAt), other, now) == CacheLookup(entries, other, now)
  {
  }

  /** The comma-joined text can be read back field by field when the first two fields have no comma. */
  lemma JoinedReadBack(lat: string, lng: string, hours: string)
    ensures ',' !in lat ==> FirstField(lat + "," + lng + "," + hours, ',') == lat
    ensures ',' !in lat && ',' !in lng ==>
              var rest := AfterSeparator(lat + "," + lng + "," + hours, ',');
              FirstField(rest, ',') == lng && AfterSeparator(rest, ',') == hours
  {
    var key := lat + "," + lng + "," + hours;
    assert key == lat + [','] + (lng + "," + hours);
    assert lng + "," + hours == lng + [','] + hours;
    if ',' !in lat {
      SplitAtSeparator(lat, lng + "," + hours, ',');
      if ',' !in lng {
        SplitAtSeparator(lng, hours, ',');
      }
    }
  }

  /** The cache key: the raw query strings joined by commas. */
  function CacheKey(lat: string, lng: string, hours: string): (key: string)
    ensures |key| == |lat| + |lng| + |hours| + 2
    ensures ',' !in lat ==> FirstField(key, ',') == lat
    ensures ',' !in lat && ',' !in lng ==>
              FirstField(AfterSeparator(key, ','), ',') == lng &&
              AfterSeparator(AfterSeparator(key, ','), ',') == hours
  {
    JoinedReadBack(lat, lng, hours);
    lat + "," + lng + "," + hours
  }

  /**
   * For coordinates without commas the key determines the three raw strings, so two
   * spellings of the same number ("12.5" and "12.50") get distinct entries.
   */
  lemma CacheKeyInjective(lat: string, lng: string, hours: string, lat': string, lng': string, hours': string)
    requires ',' !in lat && ',' !in lng && ',' !in lat' && ',' !in lng'
    ensures CacheKey(lat, lng, hours) == CacheKey(lat', lng', hours') <==>
            lat == lat' && lng == lng' && hours == hours'
  {
  }

  /**
   * Keys are built from the raw strings, and `parseFloat` stops at the first comma, so two
   * requests for different points can share a key: with `parseFloat` reading "1,2" as 1 and
   * "2,3" as 2, the queries lat=1,2&lng=3 and lat=1&lng=2,3 both pass validation, name the
   * points (1, 3) and (1, 2), and get the same key.
   */
  lemma DistinctPointsShareKey(parseFloat: string -> Option<real>, parseInt: string -> Option<int>)
    requires parseFloat("1,2") == Some(1.0) && parseFloat("3") == Some(3.0)
    requires parseFloat("1") == Some(1.0) && parseFloat("2,3") == Some(2.0)
    ensures var q := Query(Some("1,2"), Some("3"), None);
            var q' := Query(Some("1"), Some("2,3"), None);
            var v := Validate(q, parseFloat, parseInt);
            var v' := Validate(q', parseFloat, parseInt);
            && v.Checked? && v'.Checked? && (v.lat, v.lng) != (v'.lat, v'.lng)
            && CacheKey(q.lat.value, q.lng.value, HoursText(q)) == CacheKey(q'.lat.value, q'.lng.value, HoursText(q'))
  {
    assert "1,2" + "," + "3" + "," + "48" == "1" + "," + "2,3" + "," + "48";
  }

  // ---------------------------------------------------------------------------
  // Validation
  // ---------------------------------------------------------------------------

  /** The three query parameters as strings; None when absent. */
  datatype Query = Query(lat: Option<string>, lng: Option<string>, hours: Option<string>)

  datatype Validated = Invalid(message: string) | Checked(lat: real, lng: real, hours: int)

  /** JavaScript truthiness of a query string: present and not empty. */
  predicate Truthy(p: Option<string>)
  {
    p.Some? && p.value != ""
  }

  /** The `hours` that ends up in the cache key: the raw string, or 48 when absent. */
  function HoursText(q: Query): (text: string)
    ensures q.hours.Some? ==> text == q.hours.value
    ensures q.hours.None? ==> text == "48"
  {
    if q.hours.Some? then q.hours.value else "48"
  }

  /** `parseInt(hours)`, where an absent `hours` has already defaulted to the number 48. */
  function ParsedHours(q: Query, parseInt: string -> Option<int>): (hours: Option<int>)
    ensures q.hours.Some? ==> hours == parseInt(q.hours.value)
    ensures q.hours.None? ==> hours == Some(48)
  {
    if q.hours.Some? then parseInt(q.hours.value) else Some(48)
  }

  predicate CoordinatesInRange(lat: Option<real>, lng: Option<real>)
  {
    lat.Some? && lng.Some? && -90.0 <= lat.value <= 90.0 && -180.0 <= lng.value <= 180.0
  }

  predicate HoursInRange(hours: Option<int>)
  {
    hours.Some? && 1 <= hours.value <= 168
  }

  /**
   * The handler's checks in their order: presence, then both coordinates, then hours.
   * `parseFloat` and `parseInt` give None for NaN.
   */
  function Validate(q: Query, parseFloat: string -> Option<real>, parseInt: string -> Option<int>): (v: Validated)
    ensures !(Truthy(q.lat) && Truthy(q.lng)) ==> v == Invalid(MissingCoordinatesMessage)
    ensures Truthy(q.lat) && Truthy(q.lng) && !CoordinatesInRange(parseFloat(q.lat.value), parseFloat(q.lng.value)) ==>
              v == Invalid(InvalidCoordinatesMessage)
    ensures (Truthy(q.lat) && Truthy(q.lng) && CoordinatesInRange(parseFloat(q.lat.value), parseFloat(q.lng.value)) &&
             !HoursInRange(ParsedHours(q, parseInt))) ==> v == Invalid(InvalidHoursMessage)
    ensures v.Checked? <==> (Truthy(q.lat) && Truthy(q.lng) &&
              CoordinatesInRange(parseFloat(q.lat.value), parseFloat(q.lng.value)) && HoursInRange(ParsedHours(q, parseInt)))
    ensures v.Checked? ==> (Some(v.lat) == parseFloat(q.lat.value) && Some(v.lng) == parseFloat(q.lng.value) &&
              Some(v.hours) == ParsedHours(q, parseInt) && -90.0 <= v.lat <= 90.0 && -180.0 <= v.lng <= 180.0 && 1 <= v.hours <= 168)
  {
    if !Truthy(q.lat) || !Truthy(q.lng) then Invalid(MissingCoordinatesMessage)
    else
      var lat := parseFloat(q.lat.value);
      var lng := parseFloat(q.lng.value);
      var hours := ParsedHours(q, parseInt);
      if !CoordinatesInRange(lat, lng) then Invalid(InvalidCoordinatesMessage)
      else if !HoursInRange(hours) then Invalid(InvalidHoursMessage)
      else Checked(lat.value, lng.value, hours.value)
  }

  // ---------------------------------------------------------------------------
  // Normalisation and the response body
  // ---------------------------------------------------------------------------

  /** The first `n` readings: position i pairs `time[i]` with element i of each field array. */
  function Readings(time: seq<string>, temperature: seq<Value>, precipitation: seq<Value>,
                    windSpeed: seq<Value>, humidity: seq<Value>, n: nat): (r: seq<Reading>)
    requires n <= |time|
    ensures |r| == n
    ensures forall i :: 0 <= i < n ==>
              r[i] == Reading(time[i], At(temperature, i), At(precipitation, i), At(windSpeed, i), At(humidity, i))
  {
    if n == 0 then []
    else Readings(time, temperature, precipitation, windSpeed, humidity, n - 1) +
         [Reading(time[n - 1], At(temperature, n - 1), At(precipitation, n - 1), At(windSpeed, n - 1), At(humidity, n - 1))]
  }

  /** The four field arrays the route reads from are all present. */
  predicate HasReadingFields(h: Hourly)
  {
    h.temperature.Some? && h.precipitation.Some? && h.windSpeed.Some? && h.humidity.Some?
  }

  /**
   * `weatherData.hourly.time.map(...)`: fails when `hourly` or `time` is missing, or when a field
   * array is missing and the callback runs at least once.
   */
  function Normalize(hourly: Option<Hourly>): (r: Result<seq<Reading>>)
    ensures r.Ok? <==> (hourly.Some? && hourly.value.time.Some? &&
                        (hourly.value.time.value == [] || HasReadingFields(hourly.value)))
    ensures r.Ok? ==> var h := hourly.value; var time := h.time.value;
              |r.value| == |time| &&
              forall i :: 0 <= i < |time| ==>
                r.value[i] == Reading(time[i], At(h.temperature.value, i), At(h.precipitation.value, i),
                                      At(h.windSpeed.value, i), At(h.humidity.value, i))
  {
    if hourly.None? || hourly.value.time.None? then Err(MissingFieldMessage)
    else
      var h := hourly.value;
      if h.time.value == [] then Ok([])
      else if !HasReadingFields(h) then Err(MissingFieldMessage)
      else Ok(Readings(h.time.value, h.temperature.value, h.precipitation.value,
                       h.windSpeed.value, h.humidity.value, |h.time.value|))
  }

  /** The body built after a miss: upstream failures and normalisation failures give the error to report. */
  function BuildResponse(fetched: FetchOutcome, alerts: seq<Reading> -> seq<Alert>, generatedAt: string): (r: Result<ResponseData>)
    ensures fetched.FetchFailed? ==> r == Err(fetched.message)
    ensures r.Ok? ==> (fetched.Fetched? && Normalize(fetched.payload.hourly).Ok? &&
              var p := fetched.payload;
              r.value == ResponseData(p.latitude, p.longitude, p.elevation, p.hourly.value,
                                      alerts(Normalize(p.hourly).value), generatedAt, false))
    ensures fetched.Fetched? && Normalize(fetched.payload.hourly).Ok? ==> r.Ok?
  {
    match fetched
    case FetchFailed(m) => Err(m)
    case Fetched(p) =>
      match Normalize(p.hourly)
      case Err(m) => Err(m)
      case Ok(readings) =>
        Ok(ResponseData(p.latitude, p.longitude, p.elevation, p.hourly.value, alerts(readings), generatedAt, false))
  }

  /** The route's replies. */
  datatype Response =
    | BadRequest(message: string)
    | TooManyRequests(message: string)
    | ServerError(message: string, details: string)
    | Json(data: ResponseData)

  function StatusCode(r: Response): int
  {
    match r
    case BadRequest(_) => 400
    case TooManyRequests(_) => 429
    case ServerError(_, _) => 500
    case Json(_) => 200
  }

  /**
   * What the handler takes from outside: the number parsers, the upstream fetch for the
   * parsed coordinates, the alert engine, and the clock readings it makes (one in the rate
   * limiter, one at the cache lookup, one at the cache store, and the instant stamped on the body).
   */
  datatype RouteEnv = RouteEnv(
    parseFloat: string -> Option<real>,
    parseInt: string -> Option<int>,
    fetch: (real, real) -> FetchOutcome,
    alerts: seq<Reading> -> seq<Alert>,
    limitNow: int, lookupNow: int, storeNow: int,
    generatedAt: string)

  // ---------------------------------------------------------------------------
  // The route's state
  // ---------------------------------------------------------------------------

  class WeatherRouter {
    /** Client address -> instants of its admitted requests. */
    var rateLimit: map<string, seq<int>>
    /** Cache key -> last response stored for it. */
    var cache: map<string, CacheEntry>

    /** No client has more than RateLimit stored instants, and no cached body claims to be a cache hit. */
    ghost predicate Valid()
      reads this
    {
      (forall ip :: ip in rateLimit ==> |rateLimit[ip]| <= RateLimit) &&
      (forall key :: key in cache ==> !cache[key].data.cacheHit)
    }

    constructor ()
      ensures Valid() && rateLimit == map[] && cache == map[]
    {
      rateLimit := map[];
      cache := map[];
    }

    /** `checkRateLimit(ip)`: prune, deny at RateLimit, otherwise record `now`. A denial writes nothing. */
    method CheckRateLimit(ip: string, now: int) returns (admitted: bool)
      requires Valid()
      modifies this
      ensures Valid() && cache == old(cache)
      ensures admitted <==> CountRecent(Stored(old(rateLimit), ip), now - RateLimitWindow) < RateLimit
      ensures admitted ==> rateLimit == old(rateLimit)[ip := RateCheck(Stored(old(rateLimit), ip), now).stored]
      ensures !admitted ==> rateLimit == old(rateLimit)
      ensures forall other :: other != ip ==> Stored(rateLimit, other) == Stored(old(rateLimit), other)
    {
      var recent := Recent(Stored(rateLimit, ip), now - RateLimitWindow);
      RecentCount(Stored(rateLimit, ip), now - RateLimitWindow);
      if |recent| >= RateLimit {
        return false;
      }
      recent := recent + [now];
      rateLimit := rateLimit[ip := recent];
      return true;
    }

    /** `cache.get(key)` followed by the freshness test. */
    method CacheGet(key: string, now: int) returns (hit: Option<ResponseData>)
      ensures hit.Some? <==> key in cache && now - cache[key].timestamp < CacheTtl
      ensures hit.Some? ==> hit.value == cache[key].data
      ensures hit == CacheLookup(cache, key, now)
    {
      if key in cache && now - cache[key].timestamp < CacheTtl {
        hit := Some(cache[key].data);
      } else {
        hit := None;
      }
    }

    /** `cache.set(key, {data, timestamp: now})`: overwrites the entry for `key` only. */
    method CacheSet(key: string, data: ResponseData, now: int)
      modifies this
      ensures cache == CacheStore(old(cache), key, data, now) && rateLimit == old(rateLimit)
      ensures old(Valid()) && !data.cacheHit ==> Valid()
    {
      cache := cache[key := CacheEntry(data, now)];
    }

    /** The `GET /weather` handler. */
    method HandleGet(q: Query, ip: string, env: RouteEnv) returns (resp: Response)
      requires Valid()
      modifies this
      ensures Valid()
      ensures StatusCode(resp) == 400 <==> Validate(q, env.parseFloat, env.parseInt).Invalid?
      ensures StatusCode(resp) == 429 <==>
                Validate(q, env.parseFloat, env.parseInt).Checked? &&
                !RateCheck(Stored(old(rateLimit), ip), env.limitNow).admitted
      // Every rejected request leaves both maps alone, so it consumes no rate-limit slot.
      ensures Validate(q, env.parseFloat, env.parseInt).Invalid? ==>
                resp == BadRequest(Validate(q, env.parseFloat, env.parseInt).message) &&
                rateLimit == old(rateLimit) && cache == old(cache)
      ensures Validate(q, env.parseFloat, env.parseInt).Checked? ==>
                var v := Validate(q, env.parseFloat, env.parseInt);
                var d := RateCheck(Stored(old(rateLimit), ip), env.limitNow);
                (rateLimit == if d.admitted then old(rateLimit)[ip := d.stored] else old(rateLimit)) &&
                (!d.admitted ==> resp == TooManyRequests(RateLimitedMessage) && cache == old(cache)) &&
                (d.admitted ==>
                  var key := CacheKey(q.lat.value, q.lng.value, HoursText(q));
                  var hit := CacheLookup(old(cache), key, env.lookupNow);
                  var built := BuildResponse(env.fetch(v.lat, v.lng), env.alerts, env.generatedAt);
                  if hit.Some? then
                    resp == Json(hit.value) && !hit.value.cacheHit && cache == old(cache)
                  else if built.Err? then
                    resp == ServerError(FetchFailedMessage, built.error) && cache == old(cache)
                  else
                    resp == Json(built.value) && !built.value.cacheHit &&
                    cache == CacheStore(old(cache), key, built.value, env.storeNow))
    {
      var v := Validate(q, env.parseFloat, env.parseInt);
      if v.Invalid? {
        return BadRequest(v.message);
      }
      var admitted := CheckRateLimit(ip, env.limitNow);
      if !admitted {
        return TooManyRequests(RateLimitedMessage);
      }
      var key := CacheKey(q.lat.value, q.lng.value, HoursText(q));
      var cached := CacheGet(key, env.lookupNow);
      if cached.Some? {
        return Json(cached.value);
      }
      var built := BuildResponse(env.fetch(v.lat, v.lng), env.alerts, env.generatedAt);
      if built.Err? {
        return ServerError(FetchFailedMessage, built.error);
      }
      CacheSet(key, built.value, env.storeNow);
      resp := Json(built.value);
    }
  }
}
