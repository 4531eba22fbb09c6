/**
 * The background ingestion worker: for one farm, fetch the Open-Meteo forecast,
 * build one row per hourly timestamp and insert the rows in chunks of 100,
 * carrying on past failed chunks; for all farms, do that farm by farm, carrying
 * on past a farm whose ingestion fails.
 *
 * The HTTP fetch, `new Date(t).toISOString()`, `Number(...)` and the table
 * insert are collaborators passed in as functions.
 */
module IngestWorker {
  import opened Wrappers
  import opened OpenMeteo
  import opened Numbers

  const ChunkSize: nat := 100
  const Provider := "open-meteo"
  const DataType := "hourly_forecast"

  datatype Row = Row(
    farmId: string, lat: Number, lng: Number,
    provider: string, dataType: string, targetTime: string,
    temp: Value, humidity: Value, precip: Value, windSpeed: Value, windDir: Value,
    raw: Payload)

  /** Row i of a farm's forecast; `targetTime` is the ISO form of `time[i]`. */
  function RowAt(farmId: string, lat: Number, lng: Number, h: Hourly, payload: Payload, i: nat, targetTime: string): (row: Row)
    ensures row.farmId == farmId && row.lat == lat && row.lng == lng && row.targetTime == targetTime && row.raw == payload
    ensures row.provider == Provider && row.dataType == DataType
    ensures h.temperature.Some? && i < |h.temperature.value| ==> row.temp == h.temperature.value[i]
    ensures h.humidity.Some? && i < |h.humidity.value| ==> row.humidity == h.humidity.value[i]
    ensures h.precipitation.Some? && i < |h.precipitation.value| ==> row.precip == h.precipitation.value[i]
    ensures h.windSpeed.Some? && i < |h.windSpeed.value| ==> row.windSpeed == h.windSpeed.value[i]
    ensures h.windDirection.Some? && i < |h.windDirection.value| ==> row.windDir == h.windDirection.value[i]
    ensures h.temperature.None? || i >= |h.temperature.value| ==> row.temp == None
    ensures h.humidity.None? || i >= |h.humidity.value| ==> row.humidity == None
    ensures h.precipitation.None? || i >= |h.precipitation.value| ==> row.precip == None
    ensures h.windSpeed.None? || i >= |h.windSpeed.value| ==> row.windSpeed == None
    ensures h.windDirection.None? || i >= |h.windDirection.value| ==> row.windDir == None
  {
    Row(farmId, lat, lng, Provider, DataType, targetTime,
        FieldAt(h.temperature, i), FieldAt(h.humidity, i), FieldAt(h.precipitation, i),
        FieldAt(h.windSpeed, i), FieldAt(h.windDirection, i), payload)
  }

  /**
   * The first `n` rows of `hourly.time.map(...)`; `toIso` gives None where
   * `new Date(t).toISOString()` throws, and then the whole map throws.
   */
  function BuildRows(farmId: string, lat: Number, lng: Number, h: Hourly, time: seq<string>, payload: Payload,
                     toIso: string -> Option<string>, n: nat): (r: Result<seq<Row>>)
    requires n <= |time|
    ensures r.Ok? <==> forall i :: 0 <= i < n ==> toIso(time[i]).Some?
    ensures r.Err? ==> r.error == InvalidTimeMessage
    ensures r.Ok? ==> (|r.value| == n &&
              forall i :: 0 <= i < n ==> r.value[i] == RowAt(farmId, lat, lng, h, payload, i, toIso(time[i]).value))
  {
    if n == 0 then Ok([])
    else
      match BuildRows(farmId, lat, lng, h, time, payload, toIso, n - 1)
      case Err(m) => Err(m)
      case Ok(rows) =>
        match toIso(time[n - 1])
        case None => Err(InvalidTimeMessage)
        case Some(iso) => Ok(rows + [RowAt(farmId, lat, lng, h, payload, n - 1, iso)])
  }

  /** Every built row carries the farm's identity, its coordinates and the fixed provenance tags. */
  lemma RowsShareProvenance(farmId: string, lat: Number, lng: Number, h: Hourly, time: seq<string>, payload: Payload,
                            toIso: string -> Option<string>)
    requires BuildRows(farmId, lat, lng, h, time, payload, toIso, |time|).Ok?
    ensures var rows := BuildRows(farmId, lat, lng, h, time, payload, toIso, |time|).value;
            |rows| == |time| &&
            forall row :: row in rows ==>
              row.farmId == farmId && row.lat == lat && row.lng == lng &&
              row.provider == Provider && row.dataType == DataType && row.raw == payload
  {
  }

  // ---------------------------------------------------------------------------
  // Chunking
  // ---------------------------------------------------------------------------

  function Min(a: int, b: int): int
  {
    if a <= b then a else b
  }

  /** `s.slice(from, to)` for `from <= to` and `from <= |s|`: the end is clamped to the length. */
  function Slice<T>(s: seq<T>, from: nat, to: nat): seq<T>
    requires from <= to && from <= |s|
  {
    s[from..Min(to, |s|)]
  }

  function Flatten<T>(chunks: seq<seq<T>>): seq<T>
  {
    if chunks == [] then [] else chunks[0] + Flatten(chunks[1..])
  }

  /** The chunks the insert loop takes: contiguous slices of ChunkSize, the last one possibly shorter. */
  function Chunks<T>(s: seq<T>): (chunks: seq<seq<T>>)
    ensures |chunks| == (|s| + ChunkSize - 1) / ChunkSize
    ensures forall k :: 0 <= k < |chunks| ==> 0 < |chunks[k]| <= ChunkSize
    ensures forall k :: 0 <= k < |chunks| - 1 ==> |chunks[k]| == ChunkSize
    decreases |s|
  {
    if s == [] then []
    else if |s| <= ChunkSize then [s]
    else [s[..ChunkSize]] + Chunks(s[ChunkSize..])
  }

  /** The chunks, concatenated in order, give back the rows. */
  lemma {:induction false} ChunksFlatten<T>(s: seq<T>)
    ensures Flatten(Chunks(s)) == s
    decreases |s|
  {
    if s != [] {
      if |s| <= ChunkSize {
        assert Flatten([s]) == s + Flatten([s][1..]);
      } else {
        var rest := Chunks(s[ChunkSize..]);
        ChunksFlatten(s[ChunkSize..]);
        assert ([s[..ChunkSize]] + rest)[1..] == rest;
        assert s[..ChunkSize] + s[ChunkSize..] == s;
      }
    }
  }

  /** Chunk k is the slice that starts at k·ChunkSize. */
  lemma {:induction false} ChunkIsSlice<T>(s: seq<T>, k: nat)
    requires k < |Chunks(s)|
    ensures k * ChunkSize < |s|
    ensures Chunks(s)[k] == Slice(s, k * ChunkSize, (k + 1) * ChunkSize)
    decreases |s|
  {
    if k > 0 {
      assert |s| > ChunkSize;
      var rest := s[ChunkSize..];
      ChunkIsSlice(rest, k - 1);
      assert Chunks(s)[k] == Chunks(rest)[k - 1];
      assert rest[(k - 1) * ChunkSize..Min(k * ChunkSize, |rest|)] == s[k * ChunkSize..Min((k + 1) * ChunkSize, |s|)];
    }
  }

  /** The chunks from position i on: the slice at i, then the chunks after it. */
  lemma ChunksFrom<T>(s: seq<T>, i: nat)
    requires i < |s|
    ensures Chunks(s[i..]) == [Slice(s, i, i + ChunkSize)] + Chunks(s[Min(i + ChunkSize, |s|)..])
  {
    var remaining := s[i..];
    if |remaining| <= ChunkSize {
      assert Slice(s, i, i + ChunkSize) == remaining;
      assert s[Min(i + ChunkSize, |s|)..] == [];
      assert Chunks(remaining) == [remaining];
    } else {
      assert remaining[..ChunkSize] == Slice(s, i, i + ChunkSize);
      assert remaining[ChunkSize..] == s[i + ChunkSize..];
    }
  }

  /**
   * `for (i = 0; i < rows.length; i += chunkSize)`: every chunk is inserted once,
   * in order, whatever became of the chunks before it. `insert(k, chunk)` is false
   * when the k-th insert reports an error.
   */
  method InsertChunks(rows: seq<Row>, insert: (nat, seq<Row>) -> bool) returns (attempted: seq<seq<Row>>, outcomes: seq<bool>)
    ensures attempted == Chunks(rows)
    ensures |outcomes| == |attempted|
    ensures forall k :: 0 <= k < |outcomes| ==> outcomes[k] == insert(k, attempted[k])
  {
    attempted, outcomes := [], [];
    var i: nat := 0;
    while i < |rows|
      invariant attempted + Chunks(rows[Min(i, |rows|)..]) == Chunks(rows)
      invariant |outcomes| == |attempted|
      invariant forall k :: 0 <= k < |outcomes| ==> outcomes[k] == insert(k, attempted[k])
    {
      var chunk := Slice(rows, i, i + ChunkSize);
      var ok := insert(|attempted|, chunk);
      ChunksFrom(rows, i);
      assert (attempted + [chunk]) + Chunks(rows[Min(i + ChunkSize, |rows|)..]) ==
             attempted + ([chunk] + Chunks(rows[Min(i + ChunkSize, |rows|)..]));
      attempted := attempted + [chunk];
      outcomes := outcomes + [ok];
      i := i + ChunkSize;
    }
    assert rows[Min(i, |rows|)..] == [];
  }

  // ---------------------------------------------------------------------------
  // One farm
  // ---------------------------------------------------------------------------

  /** What `fetchAndStore` ends with: an early return, a thrown error, or the count it logs. */
  datatype StoreResult = MissingCoordinates | NoHourlyPayload | Failed(message: string) | Stored(count: nat)

  /** The effects of one `fetchAndStore`: whether it fetched, the chunks it inserted, their outcomes, and its result. */
  datatype StoreReport = StoreReport(fetched: bool, attempted: seq<seq<Row>>, outcomes: seq<bool>, result: StoreResult)

  /** The collaborators of one `fetchAndStore`. */
  datatype WorkerEnv = WorkerEnv(
    fetch: (Number, Number) -> FetchOutcome,
    toIso: string -> Option<string>,
    insert: (nat, seq<Row>) -> bool)

  /** The outcome of each chunk's insert, by chunk index. */
  function InsertOutcomes(chunks: seq<seq<Row>>, insert: (nat, seq<Row>) -> bool): (r: seq<bool>)
    ensures |r| == |chunks| && forall k :: 0 <= k < |chunks| ==> r[k] == insert(k, chunks[k])
  {
    seq(|chunks|, k requires 0 <= k < |chunks| => insert(k, chunks[k]))
  }

  /** `fetchAndStore(lat, lng, farmId)` as a function of its inputs; `lat`/`lng` None are `null`/`undefined`. */
  function Ingest(lat: Option<Number>, lng: Option<Number>, farmId: string, env: WorkerEnv): (r: StoreReport)
    ensures r.fetched <==> lat.Some? && lng.Some?
    ensures |r.outcomes| == |r.attempted|
    ensures r.result.Stored? ==> |Flatten(r.attempted)| == r.result.count
  {
    if lat.None? || lng.None? then StoreReport(false, [], [], MissingCoordinates)
    else
      match env.fetch(lat.value, lng.value)
      case FetchFailed(m) => StoreReport(true, [], [], Failed(m))
      case Fetched(payload) =>
        if payload.hourly.None? || payload.hourly.value.time.None? then StoreReport(true, [], [], NoHourlyPayload)
        else
          var h := payload.hourly.value;
          var time := h.time.value;
          match BuildRows(farmId, lat.value, lng.value, h, time, payload, env.toIso, |time|)
          case Err(m) => StoreReport(true, [], [], Failed(m))
          case Ok(rows) =>
            ChunksFlatten(rows);
            var chunks := Chunks(rows);
            StoreReport(true, chunks, InsertOutcomes(chunks, env.insert), Stored(|rows|))
  }

  /**
   * The guards of `fetchAndStore` and what a completed run inserted: the rows, one per hourly
   * time and in order, cut into ceil(n/100) chunks that are all attempted; the count is the
   * number of rows whatever the inserts reported.
   */
  lemma IngestContract(lat: Option<Number>, lng: Option<Number>, farmId: string, env: WorkerEnv)
    ensures var r := Ingest(lat, lng, farmId, env);
      && ((lat.None? || lng.None?) <==> r.result.MissingCoordinates?)
      && (r.result.MissingCoordinates? <==> !r.fetched)
      && (r.result.NoHourlyPayload? <==>
            (lat.Some? && lng.Some? && env.fetch(lat.value, lng.value).Fetched? &&
             var p := env.fetch(lat.value, lng.value).payload; (p.hourly.None? || p.hourly.value.time.None?)))
      && (!r.result.Stored? ==> r.attempted == [] && r.outcomes == [])
      && (r.result.Stored? ==>
            var p := env.fetch(lat.value, lng.value).payload;
            var time := p.hourly.value.time.value;
            && r.result.count == |time|
            && |r.attempted| == (|time| + ChunkSize - 1) / ChunkSize
            && (|r.attempted| > 0 <==> |time| > 0)
            && |Flatten(r.attempted)| == |time|
            && (forall i :: 0 <= i < |time| ==>
                  Flatten(r.attempted)[i] ==
                  RowAt(farmId, lat.value, lng.value, p.hourly.value, p, i, env.toIso(time[i]).value))
            && |r.outcomes| == |r.attempted|
            && forall k :: 0 <= k < |r.attempted| ==> r.outcomes[k] == env.insert(k, r.attempted[k]))
    ensures var r := Ingest(lat, lng, farmId, env);
      r.result.Stored? <==>
        (lat.Some? && lng.Some? && env.fetch(lat.value, lng.value).Fetched? &&
         var p := env.fetch(lat.value, lng.value).payload;
         p.hourly.Some? && p.hourly.value.time.Some? &&
         forall i :: 0 <= i < |p.hourly.value.time.value| ==> env.toIso(p.hourly.value.time.value[i]).Some?)
    ensures lat.Some? && lng.Some? && env.fetch(lat.value, lng.value).FetchFailed? ==>
      Ingest(lat, lng, farmId, env).result == Failed(env.fetch(lat.value, lng.value).message)
    ensures (lat.Some? && lng.Some? && env.fetch(lat.value, lng.value).Fetched? &&
             var p := env.fetch(lat.value, lng.value).payload;
             p.hourly.Some? && p.hourly.value.time.Some? &&
             exists i :: 0 <= i < |p.hourly.value.time.value| && env.toIso(p.hourly.value.time.value[i]).None?) ==>
      Ingest(lat, lng, farmId, env).result == Failed(InvalidTimeMessage)
  {
    var r := Ingest(lat, lng, farmId, env);
    if r.result.Stored? {
      ChunksFlatten(BuildRows(farmId, lat.value, lng.value, env.fetch(lat.value, lng.value).payload.hourly.value,
                              env.fetch(lat.value, lng.value).payload.hourly.value.time.value,
                              env.fetch(lat.value, lng.value).payload, env.toIso,
                              |env.fetch(lat.value, lng.value).payload.hourly.value.time.value|).value);
    }
  }

  /**
   * `fetchAndStore`: returns early without fetching when a coordinate is missing, and without
   * inserting when the payload has no hourly times; otherwise every chunk of the rows is inserted
   * and the logged count is the number of rows whatever the inserts reported.
   */
  method FetchAndStore(lat: Option<Number>, lng: Option<Number>, farmId: string, env: WorkerEnv) returns (report: StoreReport)
    ensures report == Ingest(lat, lng, farmId, env)
    ensures (lat.None? || lng.None?) ==> !report.fetched && report.attempted == [] && report.result == MissingCoordinates
    ensures report.result.Stored? ==> report.fetched && |Flatten(report.attempted)| == report.result.count
    ensures |report.outcomes| == |report.attempted|
  {
    if lat.None? || lng.None? {
      return StoreReport(false, [], [], MissingCoordinates);
    }
    var fetched := env.fetch(lat.value, lng.value);
    if fetched.FetchFailed? {
      return StoreReport(true, [], [], Failed(fetched.message));
    }
    var payload := fetched.payload;
    if payload.hourly.None? || payload.hourly.value.time.None? {
      return StoreReport(true, [], [], NoHourlyPayload);
    }
    var h := payload.hourly.value;
    var time := h.time.value;
    var built := BuildRows(farmId, lat.value, lng.value, h, time, payload, env.toIso, |time|);
    if built.Err? {
      return StoreReport(true, [], [], Failed(built.error));
    }
    var rows := built.value;
    var attempted, outcomes := InsertChunks(rows, env.insert);
    ChunksFlatten(rows);
    report := StoreReport(true, attempted, outcomes, Stored(|rows|));
  }

  // ---------------------------------------------------------------------------
  // All farms
  // ---------------------------------------------------------------------------

  /** A row of the farms query; the coordinates may be stored as strings. */
  datatype FarmRecord = FarmRecord(id: string, lat: string, lng: string)

  /** The farms query: an error, or the farms whose coordinates are not null. */
  datatype FarmsQuery = FarmsError(message: string) | FarmsFound(farms: seq<FarmRecord>)

  datatype FarmReport = FarmReport(farmId: string, report: StoreReport)

  /**
   * `runAllFarms`: nothing is processed when the farms query fails; otherwise each farm, in
   * order, gets exactly one `fetchAndStore` with its coordinates converted by `Number`, and a
   * failure for one farm does not stop the farms after it. `envFor(k)` holds the collaborators
   * as the k-th farm sees them.
   */
  method RunAllFarms(query: FarmsQuery, toNumber: string -> Number, envFor: nat -> WorkerEnv) returns (reports: seq<FarmReport>)
    ensures query.FarmsError? ==> reports == []
    ensures query.FarmsFound? ==> |reports| == |query.farms|
    ensures query.FarmsFound? ==> forall k :: 0 <= k < |reports| ==>
              var f := query.farms[k];
              reports[k] == FarmReport(f.id, Ingest(Some(toNumber(f.lat)), Some(toNumber(f.lng)), f.id, envFor(k)))
  {
    reports := [];
    if query.FarmsError? {
      return;
    }
    var farms := query.farms;
    var k := 0;
    while k < |farms|
      invariant 0 <= k <= |farms|
      invariant |reports| == k
      invariant forall j :: 0 <= j < k ==>
                  reports[j] == FarmReport(farms[j].id,
                    Ingest(Some(toNumber(farms[j].lat)), Some(toNumber(farms[j].lng)), farms[j].id, envFor(j)))
    {
      var f := farms[k];
      var report := FetchAndStore(Some(toNumber(f.lat)), Some(toNumber(f.lng)), f.id, envFor(k));
      reports := reports + [FarmReport(f.id, report)];
      k := k + 1;
    }
  }
}
