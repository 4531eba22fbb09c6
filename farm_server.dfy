/**
 * The `GET /api/farms/:id/weather` endpoint: bearer-token extraction, optional
 * user resolution, the 404/403 decision, the time window of the query and the
 * filter-and-order contract of the persisted-row query, over an abstract table.
 *
 * The identity service, the farms lookup, the clock and `Number(...)` are
 * collaborators passed in as values and functions.
 */
module FarmServer {
  import opened Wrappers
  import opened Numbers
  import opened Text

  const BearerPrefix := "Bearer "
  const DefaultHours: real := 48.0
  const MillisPerHour: int := 3600 * 1000
  /** The largest distance from the epoch, in milliseconds, that an ECMAScript Date can hold. */
  const MaxTime: int := 8640000000000000

  // ---------------------------------------------------------------------------
  // Bearer token
  // ---------------------------------------------------------------------------

  /** JavaScript `s.split(sep)`: the fields between occurrences of `sep`, empty ones included. */
  function Split(s: string, sep: char): (parts: seq<string>)
    ensures |parts| >= 1
    ensures sep in s ==> |parts| >= 2
    ensures forall i :: 0 <= i < |parts| ==> sep !in parts[i]
    decreases |s|
  {
    if s == [] then [""]
    else
      var rest := Split(s[1..], sep);
      if s[0] == sep then [""] + rest
      else
        assert sep in s ==> sep in s[1..] by {
          if sep in s {
            var j :| 0 <= j < |s| && s[j] == sep;
            assert s[1..][j - 1] == sep;
          }
        }
        [[s[0]] + rest[0]] + rest[1..]
  }

  /** Joining the fields back with `sep` (`parts.join(sep)`). */
  function Join(parts: seq<string>, sep: char): string
    requires |parts| >= 1
    decreases |parts|
  {
    if |parts| == 1 then parts[0] else parts[0] + [sep] + Join(parts[1..], sep)
  }

  /** Splitting loses nothing: joining the fields gives the string back. */
  lemma {:induction false} SplitJoin(s: string, sep: char)
    ensures Join(Split(s, sep), sep) == s
    decreases |s|
  {
    if s != [] {
      var rest := Split(s[1..], sep);
      SplitJoin(s[1..], sep);
      if s[0] == sep {
        assert ([""] + rest)[1..] == rest;
      } else {
        var parts := [[s[0]] + rest[0]] + rest[1..];
        if |rest| == 1 {
          assert parts == [[s[0]] + rest[0]];
        } else {
          assert parts[1..] == rest[1..];
          assert Join(rest, sep) == rest[0] + [sep] + Join(rest[1..], sep);
        }
      }
    }
  }

  /** The first element of a split is the first field. */
  lemma {:induction false} SplitFirst(s: string, sep: char)
    ensures Split(s, sep)[0] == FirstField(s, sep)
    decreases |s|
  {
    if s != [] && s[0] != sep {
      SplitFirst(s[1..], sep);
    }
  }

  /** A head without `sep`, then `sep`: the split starts with the head and goes on with the split of the tail. */
  lemma {:induction false} SplitAfterHead(head: string, tail: string, sep: char)
    requires sep !in head
    ensures Split(head + [sep] + tail, sep) == [head] + Split(tail, sep)
    decreases |head|
  {
    var s := head + [sep] + tail;
    if head == [] {
      assert s[1..] == tail;
    } else {
      assert s[1..] == head[1..] + [sep] + tail;
      SplitAfterHead(head[1..], tail, sep);
      assert [head[0]] + head[1..] == head;
    }
  }

  /** `req.headers.authorization || ''`. */
  function AuthHeader(header: Option<string>): string
  {
    if header.Some? then header.value else ""
  }

  predicate StartsWithBearer(h: string)
  {
    |h| >= |BearerPrefix| && h[..|BearerPrefix|] == BearerPrefix
  }

  /**
   * `authHeader.startsWith('Bearer ') ? authHeader.split(' ')[1] : null`: the token is the text
   * after "Bearer " up to the next space (possibly empty); without the prefix there is none.
   */
  function BearerToken(header: Option<string>): (token: Option<string>)
    ensures token.Some? <==> StartsWithBearer(AuthHeader(header))
    ensures token.Some? ==> token.value == FirstField(AuthHeader(header)[|BearerPrefix|..], ' ')
    ensures token.Some? ==> ' ' !in token.value
  {
    var h := AuthHeader(header);
    if StartsWithBearer(h) then
      var tail := h[|BearerPrefix|..];
      assert h == "Bearer" + [' '] + tail;
      SplitAfterHead("Bearer", tail, ' ');
      SplitFirst(tail, ' ');
      Some(Split(h, ' ')[1])
    else None
  }

  // ---------------------------------------------------------------------------
  // User resolution and access
  // ---------------------------------------------------------------------------

  datatype User = User(id: string)

  /** The identity service's reply to `auth.getUser(token)`: an error, or data that may lack a user. */
  datatype AuthReply = AuthError | AuthData(user: Option<User>)

  /** `getUserFromToken`: null for an empty token, on an error, or when the reply has no user. */
  function GetUserFromToken(token: string, auth: string -> AuthReply): (user: Option<User>)
    ensures token == "" ==> user.None?
    ensures token != "" && auth(token).AuthError? ==> user.None?
    ensures user.Some? <==> token != "" && auth(token).AuthData? && auth(token).user.Some?
    ensures user.Some? ==> auth(token) == AuthData(user)
  {
    if token == "" then None
    else
      match auth(token)
      case AuthError => None
      case AuthData(u) => u
  }

  /** Which token, if any, was sent to the identity service, and the user it yielded. */
  datatype Resolution = Resolution(asked: Option<string>, user: Option<User>)

  /** `token ? await getUserFromToken(token) : null`: an absent or empty token asks nothing. */
  function ResolveUser(token: Option<string>, auth: string -> AuthReply): (r: Resolution)
    ensures r.asked.Some? <==> token.Some? && token.value != ""
    ensures r.asked.Some? ==> r.asked == token && r.user == GetUserFromToken(token.value, auth)
    ensures r.asked.None? ==> r.user.None?
  {
    if token.Some? && token.value != "" then Resolution(token, GetUserFromToken(token.value, auth))
    else Resolution(None, None)
  }

  /** A farm as the endpoint reads it; `userId` None is a farm whose owner column is null. */
  datatype Farm = Farm(userId: Option<string>, lat: Option<real>, lng: Option<real>)

  /** `.from('farms').select(...).eq('id', farmId).single()`: an error, or the farm (possibly none). */
  datatype FarmLookup = FarmLookupError(message: string) | FarmLookupDone(farm: Option<Farm>)

  datatype Access = NotFound | Forbidden | Granted(farm: Farm)

  /** The 404 check, then the ownership check, which applies only when a user was resolved. */
  function Decide(lookup: FarmLookup, user: Option<User>): (a: Access)
    ensures a.NotFound? <==> lookup.FarmLookupError? || lookup.farm.None?
    ensures a.Forbidden? <==> lookup.FarmLookupDone? && lookup.farm.Some? &&
                              user.Some? && lookup.farm.value.userId != Some(user.value.id)
    ensures a.Granted? ==> lookup == FarmLookupDone(Some(a.farm)) &&
                           (user.None? || a.farm.userId == Some(user.value.id))
  {
    if lookup.FarmLookupError? || lookup.farm.None? then NotFound
    else if user.Some? && lookup.farm.value.userId != Some(user.value.id) then Forbidden
    else Granted(lookup.farm.value)
  }

  // ---------------------------------------------------------------------------
  // The time window
  // ---------------------------------------------------------------------------

  /** `Number(req.query.hours || 48)`: 48 only when the parameter is absent or empty. */
  function HoursParam(raw: Option<string>, toNumber: string -> Number): (hours: Number)
    ensures raw.None? || raw == Some("") ==> hours == Finite(DefaultHours)
    ensures raw.Some? && raw.value != "" ==> hours == toNumber(raw.value)
  {
    if raw.None? || raw.value == "" then Finite(DefaultHours) else toNumber(raw.value)
  }

  /** Truncation toward zero. */
  function Trunc(x: real): (n: int)
    ensures x >= 0.0 ==> n as real <= x < n as real + 1.0
    ensures x < 0.0 ==> n as real - 1.0 < x <= n as real
  {
    if x >= 0.0 then x.Floor else -((-x).Floor)
  }

  /** ECMAScript TimeClip: an instant outside the Date range is invalid; otherwise it is truncated. */
  function TimeClip(t: real): (r: Option<int>)
    ensures r.Some? <==> -(MaxTime as real) <= t <= MaxTime as real
    ensures r.Some? ==> -MaxTime <= r.value <= MaxTime
  {
    if -(MaxTime as real) <= t <= MaxTime as real then Some(Trunc(t)) else None
  }

  /** `Date.now() + hours * 3600 * 1000`, before TimeClip. */
  function EndInstant(toNow: int, hours: real): real
  {
    toNow as real + hours * MillisPerHour as real
  }

  /** Bounds of the query, in milliseconds since the epoch. */
  datatype Window = Window(from: int, to: int)

  /**
   * `from = new Date()` and `to = new Date(Date.now() + hours * 3600 * 1000)`, two clock
   * readings; None when `to` is not a valid Date (NaN hours, or out of range), where
   * `toISOString` throws.
   */
  function QueryWindow(fromNow: int, toNow: int, hours: Number): (w: Option<Window>)
    ensures w.Some? <==> hours.Finite? && -(MaxTime as real) <= EndInstant(toNow, hours.value) <= MaxTime as real
    ensures w.Some? ==> w.value.from == fromNow
    ensures w.Some? && EndInstant(toNow, hours.value) >= 0.0 ==>
              w.value.to as real <= EndInstant(toNow, hours.value) < w.value.to as real + 1.0
    ensures w.Some? && EndInstant(toNow, hours.value) < 0.0 ==>
              w.value.to as real - 1.0 < EndInstant(toNow, hours.value) <= w.value.to as real
  {
    match hours
    case NaN => None
    case Finite(h) =>
      match TimeClip(EndInstant(toNow, h))
      case None => None
      case Some(to) => Some(Window(fromNow, to))
  }

  /** For a whole number of hours within the Date range, `to` is exactly `now + hours·3600000`. */
  lemma WholeHoursWindow(fromNow: int, toNow: int, hours: int)
    requires -MaxTime <= toNow + hours * MillisPerHour <= MaxTime
    ensures QueryWindow(fromNow, toNow, Finite(hours as real)) == Some(Window(fromNow, toNow + hours * MillisPerHour))
  {
    var t := toNow + hours * MillisPerHour;
    assert toNow as real + (hours as real) * (MillisPerHour as real) == t as real;
    assert Trunc(t as real) == t;
  }

  /** The default window of 48 hours, when the clock is within the Date range. */
  lemma DefaultWindow(fromNow: int, toNow: int, raw: Option<string>, toNumber: string -> Number)
    requires raw.None? || raw == Some("")
    requires -MaxTime <= toNow && toNow + 48 * MillisPerHour <= MaxTime
    ensures QueryWindow(fromNow, toNow, HoursParam(raw, toNumber)) == Some(Window(fromNow, toNow + 48 * MillisPerHour))
  {
    WholeHoursWindow(fromNow, toNow, 48);
  }

  // ---------------------------------------------------------------------------
  // The weather-row query
  // ---------------------------------------------------------------------------

  /** A persisted row; `targetTime` is the forecast hour in milliseconds since the epoch. */
  datatype WeatherRow = WeatherRow(
    farmId: string, targetTime: int,
    temp: Option<real>, humidity: Option<real>, precip: Option<real>, windSpeed: Option<real>, windDir: Option<real>)

  /** `.eq('farm_id', farmId).gte('target_time', from).lte('target_time', to)`. */
  predicate InWindow(row: WeatherRow, farmId: string, w: Window)
  {
    row.farmId == farmId && w.from <= row.targetTime <= w.to
  }

  /** The rows of the table that pass the filter, in table order. */
  function Matching(table: seq<WeatherRow>, farmId: string, w: Window): (r: seq<WeatherRow>)
    ensures forall row :: multiset(r)[row] == if InWindow(row, farmId, w) then multiset(table)[row] else 0
    decreases |table|
  {
    if table == [] then []
    else
      assert table == [table[0]] + table[1..];
      (if InWindow(table[0], farmId, w) then [table[0]] else []) + Matching(table[1..], farmId, w)
  }

  /** `.order('target_time', { ascending: true })`. */
  predicate SortedByTime(s: seq<WeatherRow>)
  {
    forall i, j :: 0 <= i < j < |s| ==> s[i].targetTime <= s[j].targetTime
  }

  /**
   * The contract of the query: the answer holds exactly the filtered rows, each as often as in
   * the table, in ascending target time (rows with equal times may come in any order).
   */
  ghost predicate IsQueryAnswer(table: seq<WeatherRow>, farmId: string, w: Window, answer: seq<WeatherRow>)
  {
    multiset(answer) == multiset(Matching(table, farmId, w)) && SortedByTime(answer)
  }

  /** What an answer contains: a row is in it exactly when the table has it and it passes the filter. */
  lemma AnswerContents(table: seq<WeatherRow>, farmId: string, w: Window, answer: seq<WeatherRow>)
    requires IsQueryAnswer(table, farmId, w, answer)
    ensures forall row :: row in answer <==> row in table && InWindow(row, farmId, w)
    ensures |answer| == |Matching(table, farmId, w)|
  {
    forall row
      ensures row in answer <==> row in table && InWindow(row, farmId, w)
    {
      assert row in answer <==> row in multiset(answer);
      assert row in table <==> row in multiset(table);
    }
    assert |multiset(answer)| == |multiset(Matching(table, farmId, w))|;
  }

  /** A row no later than every row of a sorted list can go in front of it. */
  lemma SortedCons(first: WeatherRow, rest: seq<WeatherRow>)
    requires SortedByTime(rest)
    requires forall i :: 0 <= i < |rest| ==> first.targetTime <= rest[i].targetTime
    ensures SortedByTime([first] + rest)
  {
    var s := [first] + rest;
    forall i, j | 0 <= i < j < |s| ensures s[i].targetTime <= s[j].targetTime {
      assert s[j] == rest[j - 1];
      if i > 0 { assert s[i] == rest[i - 1]; }
    }
  }

  function InsertByTime(row: WeatherRow, sorted: seq<WeatherRow>): (r: seq<WeatherRow>)
    requires SortedByTime(sorted)
    ensures SortedByTime(r)
    ensures multiset(r) == multiset(sorted) + multiset{row}
    decreases |sorted|
  {
    if sorted == [] then [row]
    else if row.targetTime <= sorted[0].targetTime then
      SortedCons(row, sorted);
      [row] + sorted
    else
      var first := sorted[0];
      var tail := sorted[1..];
      assert sorted == [first] + tail;
      var rest := InsertByTime(row, tail);
      assert forall i :: 0 <= i < |rest| ==> first.targetTime <= rest[i].targetTime by {
        forall i | 0 <= i < |rest| ensures first.targetTime <= rest[i].targetTime {
          assert rest[i] in multiset(rest);
          if rest[i] != row {
            assert rest[i] in multiset(tail);
            var j :| 0 <= j < |tail| && tail[j] == rest[i];
            assert sorted[j + 1] == rest[i];
          }
        }
      }
      SortedCons(first, rest);
      [first] + rest
  }

  function SortByTime(s: seq<WeatherRow>): (r: seq<WeatherRow>)
    ensures SortedByTime(r)
    ensures multiset(r) == multiset(s)
    decreases |s|
  {
    if s == [] then []
    else
      assert s == [s[0]] + s[1..];
      InsertByTime(s[0], SortByTime(s[1..]))
  }

  /** One answer that meets the query contract, so the contract can always be met. */
  function SelectWeather(table: seq<WeatherRow>, farmId: string, w: Window): (answer: seq<WeatherRow>)
    ensures IsQueryAnswer(table, farmId, w, answer)
  {
    SortByTime(Matching(table, farmId, w))
  }

  // ---------------------------------------------------------------------------
  // The endpoint
  // ---------------------------------------------------------------------------

  datatype FarmRequest = FarmRequest(farmId: string, hours: Option<string>, authorization: Option<string>)

  /** The weather-row query: an error, or the table it runs over. */
  datatype RowsQuery = RowsError(message: string) | RowsTable(rows: seq<WeatherRow>)

  /** The endpoint's collaborators and the two clock readings of the window. */
  datatype FarmEnv = FarmEnv(
    toNumber: string -> Number,
    auth: string -> AuthReply,
    farms: string -> FarmLookup,
    fromNow: int, toNow: int,
    weather: RowsQuery)

  datatype FarmResponse =
    | FarmNotFound    // 404 "Farm not found"
    | NotOwner        // 403 "Not owner of farm"
    | ServerFailure(message: string)
    | FarmWeather(id: string, lat: Option<real>, lng: Option<real>, weather: seq<WeatherRow>)

  function StatusCode(r: FarmResponse): int
  {
    match r
    case FarmNotFound => 404
    case NotOwner => 403
    case ServerFailure(_) => 500
    case FarmWeather(_, _, _, _) => 200
  }

  /** The user the request resolves to. */
  function RequestUser(req: FarmRequest, env: FarmEnv): Option<User>
  {
    ResolveUser(BearerToken(req.authorization), env.auth).user
  }

  /** `GET /api/farms/:id/weather`. */
  function HandleFarmWeather(req: FarmRequest, env: FarmEnv): (resp: FarmResponse)
    ensures StatusCode(resp) == 404 <==>
              env.farms(req.farmId).FarmLookupError? || env.farms(req.farmId).farm.None?
    ensures StatusCode(resp) == 403 <==>
              env.farms(req.farmId).FarmLookupDone? && env.farms(req.farmId).farm.Some? &&
              RequestUser(req, env).Some? &&
              env.farms(req.farmId).farm.value.userId != Some(RequestUser(req, env).value.id)
    ensures resp.FarmWeather? ==>
              var w := QueryWindow(env.fromNow, env.toNow, HoursParam(req.hours, env.toNumber));
              && w.Some? && env.weather.RowsTable?
              && resp.id == req.farmId
              && Some(Farm(env.farms(req.farmId).farm.value.userId, resp.lat, resp.lng)) == env.farms(req.farmId).farm
              && IsQueryAnswer(env.weather.rows, req.farmId, w.value, resp.weather)
    ensures Decide(env.farms(req.farmId), RequestUser(req, env)).Granted? ==>
              var w := QueryWindow(env.fromNow, env.toNow, HoursParam(req.hours, env.toNumber));
              && (w.None? ==> resp == ServerFailure(InvalidTimeMessage))
              && (w.Some? && env.weather.RowsError? ==> resp == ServerFailure(env.weather.message))
              && (w.Some? && env.weather.RowsTable? ==> resp.FarmWeather?)
  {
    var hours := HoursParam(req.hours, env.toNumber);
    var user := RequestUser(req, env);
    match Decide(env.farms(req.farmId), user)
    case NotFound => FarmNotFound
    case Forbidden => NotOwner
    case Granted(farm) =>
      match QueryWindow(env.fromNow, env.toNow, hours)
      case None => ServerFailure(InvalidTimeMessage)
      case Some(w) =>
        match env.weather
        case RowsError(m) => ServerFailure(m)
        case RowsTable(rows) => FarmWeather(req.farmId, farm.lat, farm.lng, SelectWeather(rows, req.farmId, w))
  }

  /**
   * A request whose token resolves to no user (no header, no "Bearer " prefix, an empty token,
   * an identity error or no user in the reply) is answered as an anonymous one: never 403.
   */
  lemma UnresolvedUserSkipsOwnership(req: FarmRequest, env: FarmEnv)
    requires RequestUser(req, env).None?
    ensures HandleFarmWeather(req, env) == HandleFarmWeather(req.(authorization := None), env)
    ensures HandleFarmWeather(req, env) != NotOwner
  {
    assert BearerToken(None) == None by {
      assert !StartsWithBearer(AuthHeader(None));
    }
  }

  /** A farm lookup failure answers 404 whoever asks: the lookup is checked before ownership. */
  lemma NotFoundBeforeOwnership(req: FarmRequest, env: FarmEnv, auth: string -> AuthReply)
    requires env.farms(req.farmId).FarmLookupError? || env.farms(req.farmId).farm.None?
    ensures HandleFarmWeather(req, env) == FarmNotFound
    ensures HandleFarmWeather(req, env.(auth := auth)) == FarmNotFound
  {
  }
}
