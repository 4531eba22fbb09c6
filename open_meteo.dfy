/**
 * The shape of an Open-Meteo forecast response, as both the request path and the
 * ingestion worker read it: a few top-level numbers and an `hourly` object of
 * index-aligned arrays. Every JSON number may be `null`, and an array or the whole
 * `hourly` object may be missing.
 */
module OpenMeteo {
  import opened Wrappers

  /** A JSON number, or `null`/`undefined`. */
  type Value = Option<real>

  datatype Hourly = Hourly(
    time: Option<seq<string>>,
    temperature: Option<seq<Value>>,     // temperature_2m
    humidity: Option<seq<Value>>,        // relativehumidity_2m
    precipitation: Option<seq<Value>>,   // precipitation
    windSpeed: Option<seq<Value>>,       // windspeed_10m
    windDirection: Option<seq<Value>>)   // winddirection_10m

  datatype Payload = Payload(latitude: Value, longitude: Value, elevation: Value, hourly: Option<Hourly>)

  /** The HTTP request plus `response.json()`: a payload, or the message of the error thrown. */
  datatype FetchOutcome = Fetched(payload: Payload) | FetchFailed(message: string)

  /** A JavaScript value read out of a number array: a number, `null`, or `undefined`. */
  datatype Element = Num(value: real) | Null | Undefined

  /** JavaScript `a[i]`: the element, with a JSON null as `null`, and `undefined` past the end of the array. */
  function At(a: seq<Value>, i: nat): (v: Element)
    ensures i >= |a| ==> v == Undefined
    ensures i < |a| && a[i].None? ==> v == Null
    ensures i < |a| && a[i].Some? ==> v == Num(a[i].value)
  {
    if i >= |a| then Undefined
    else match a[i]
      case None => Null
      case Some(x) => Num(x)
  }

  /** JavaScript `a?.[i] ?? null`: the number at `i`, or `null` when the array is absent, too short or holds null there. */
  function FieldAt(a: Option<seq<Value>>, i: nat): (v: Value)
    ensures a.None? ==> v == None
    ensures a.Some? && i >= |a.value| ==> v == None
    ensures a.Some? && i < |a.value| ==> v == a.value[i]
  {
    if a.Some? && i < |a.value| then a.value[i] else None
  }
}
