/**
 * The decoded response of the World Air Quality Index feed API: the envelope
 * `{status, data}` and, inside a successful one, the station payload that the
 * client keeps as its raw data.
 */
module Payload {

  /** One geographic coordinate pair as the payload's `city.geo` array gives it. */
  datatype Coordinates = Coordinates(latitude: real, longitude: real)

  /** The `city` object of a station payload. The name is still HTML-entity encoded. */
  datatype City = City(name: string, geo: Coordinates, url: string)

  /** The `time` object: the measurement instant as text and its time zone name. */
  datatype Time = Time(s: string, tz: string)

  /** One entry of the `attributions` array. */
  datatype Attribution = Attribution(name: string, url: string)

  /**
   * The `data` object of a successful response. `iaqi` maps a pollutant code
   * (`h`, `t`, `p`, `co`, `no2`, `o3`, `pm10`, `pm25`, `so2`, ...) to the `v`
   * reading stored under it; a code the station does not measure is absent.
   * `dominentpol` keeps the service's own spelling.
   */
  datatype Snapshot = Snapshot(
    aqi: real,
    idx: int,
    city: City,
    iaqi: map<string, real>,
    dominentpol: string,
    time: Time,
    attributions: seq<Attribution>)

  /**
   * A member of the decoded envelope, as PHP sees it after `json_decode` into
   * objects: missing altogether, JSON null, a boolean, a number, a string, an
   * array, or an object (taken to be a station payload).
   */
  datatype Json =
    | Absent
    | Null
    | Bool(b: bool)
    | Number(n: real)
    | Text(s: string)
    | List
    | Record(payload: Snapshot)

  /** The top-level response object `{status, data}`. */
  datatype Envelope = Envelope(status: Json, data: Json)
}
