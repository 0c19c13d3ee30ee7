/**
 * The `WAQI` client: it holds an access token and the raw data of the last
 * observation it fetched, fetches observations by station or by coordinates,
 * and answers questions about the stored observation.
 *
 * The HTTP exchange and JSON decoding are not modelled: each fetch is given a
 * `transport` that maps the request path and query string to the decoded
 * response envelope.
 */
module Client {
  import opened Wrappers
  import opened Payload
  import opened Categorization
  import opened Responses
  import opened Paths

  /** What `getAQI` returns. */
  datatype AqiReport = AqiReport(aqi: real, pollutionLevel: string, healthImplications: string, cautionaryStatement: string)

  /** What `getMonitoringStation` returns. */
  datatype StationInfo = StationInfo(id: int, name: string, coordinates: Coordinates, url: string)

  /** The reading stored under a pollutant code, if there is a snapshot and it has one. */
  function Reading(raw: Option<Snapshot>, code: string): (r: Option<real>)
    ensures r.Some? <==> raw.Some? && code in raw.value.iaqi
    ensures r.Some? ==> r.value == raw.value.iaqi[code]
  {
    if raw.Some? && code in raw.value.iaqi then Some(raw.value.iaqi[code]) else None
  }

  /**
   * After a fetch whose response stores a payload, every pollutant getter
   * answers from that payload: the reading under its code, or none when the
   * payload has no such code (no reading is not a reading of zero).
   */
  lemma ReadingAfterFetch(raw: Option<Snapshot>, env: Envelope, code: string)
    requires env.status == Text("ok") && env.data.Record?
    ensures var stored := env.data.payload;
      Reading(Step(raw, env).0, code) == if code in stored.iaqi then Some(stored.iaqi[code]) else None
  {
  }

  class WAQI {
    /** The access token sent with every request. */
    const token: string

    /** The raw data of the last response that stored any; none before the first. */
    var rawData: Option<Snapshot>

    constructor (token: string)
      ensures this.token == token && rawData == None
    {
      this.token := token;
      rawData := None;
    }

    /**
     * Fetches the observation of a named station, or of the station nearest
     * to the caller when none is named.
     */
    method GetObservationByStation(station: Option<string>, transport: (string, string) -> Envelope)
      returns (outcome: Outcome)
      modifies this`rawData
      ensures (rawData, outcome) == Step(old(rawData), transport(StationPath(station), "token=" + token))
    {
      outcome := Request(StationPath(station), transport);
    }

    /** Fetches the observation at the given (already formatted) coordinates. */
    method GetObservationByGeoLocation(latitude: string, longitude: string, transport: (string, string) -> Envelope)
      returns (outcome: Outcome)
      modifies this`rawData
      ensures (rawData, outcome) == Step(old(rawData), transport(GeoPath(latitude, longitude), "token=" + token))
    {
      outcome := Request(GeoPath(latitude, longitude), transport);
    }

    /**
     * Requests `uri` with the token as query string and handles the decoded
     * envelope: status "ok" stores `data`, status "error" with a known message
     * raises the matching error, and anything else returns quietly.
     */
    method Request(uri: string, transport: (string, string) -> Envelope) returns (outcome: Outcome)
      modifies this`rawData
      ensures (rawData, outcome) == Step(old(rawData), transport(uri, "token=" + token))
      ensures outcome != Completed ==> rawData == old(rawData)
    {
      var body := transport(uri, "token=" + token);
      outcome := Completed;
      if body.status == Text("ok") {
        match body.data {
          case Record(s) => rawData := Some(s);
          case Absent => rawData := None;
          case Null => rawData := None;
          case _ => outcome := TypeMismatch;
        }
      } else if body.status == Text("error") {
        if body.data != Absent && body.data != Null {
          if MatchesLabel(body.data, UnknownStationLabel) {
            outcome := Raised(UnknownStation);
          } else if MatchesLabel(body.data, OverQuotaLabel) {
            outcome := Raised(QuotaExceeded);
          } else if MatchesLabel(body.data, InvalidKeyLabel) {
            outcome := Raised(InvalidAccessToken);
          }
        }
      }
    }

    /**
     * The AQI of the stored observation, cast to an integer by truncation, with
     * its category narrative. A raw AQI in [299, 300) truncates to 299 and is
     * Very Unhealthy; only a raw AQI of -1 or below leaves the narrative empty.
     */
    method GetAQI() returns (report: AqiReport)
      requires rawData.Some?
      ensures report.aqi == TruncateToInt(rawData.value.aqi) as real
      ensures Narrative(report.pollutionLevel, report.healthImplications, report.cautionaryStatement)
              == NarrativeOf(TruncateToInt(rawData.value.aqi))
      ensures report.pollutionLevel == "" <==> rawData.value.aqi <= -1.0
      ensures 299.0 <= rawData.value.aqi < 300.0 ==> report.pollutionLevel == Level(VeryUnhealthy)
      ensures rawData.value.aqi >= 300.0 ==> report.pollutionLevel == Level(Hazardous)
    {
      var aqi := TruncateToInt(rawData.value.aqi);
      var level, health, cautionary := Categorize(aqi);
      report := AqiReport(aqi as real, level, health, cautionary);
    }

    /**
     * The station of the stored observation; `decodeEntities` stands for
     * PHP's `html_entity_decode`, applied to the city name only.
     */
    function GetMonitoringStation(decodeEntities: string -> string): (info: StationInfo)
      reads this
      requires rawData.Some?
      ensures info.id == rawData.value.idx && info.url == rawData.value.city.url
      ensures info.name == decodeEntities(rawData.value.city.name)
      ensures info.coordinates == rawData.value.city.geo
    {
      var city := rawData.value.city;
      StationInfo(rawData.value.idx, decodeEntities(city.name), city.geo, city.url)
    }

    /** The code of the dominant pollutant of the stored observation. */
    function GetPrimaryPollutant(): (code: string)
      reads this
      requires rawData.Some?
      ensures code == rawData.value.dominentpol
    {
      rawData.value.dominentpol
    }

    // The nine pollutant getters. Each reads through PHP's `??`, so it returns
    // no reading both when the code is missing and when nothing is stored yet.

    function GetHumidity(): (r: Option<real>)
      reads this
      ensures r.Some? <==> rawData.Some? && "h" in rawData.value.iaqi
      ensures r.Some? ==> r.value == rawData.value.iaqi["h"]
    {
      Reading(rawData, "h")
    }

    function GetTemperature(): (r: Option<real>)
      reads this
      ensures r.Some? <==> rawData.Some? && "t" in rawData.value.iaqi
      ensures r.Some? ==> r.value == rawData.value.iaqi["t"]
    {
      Reading(rawData, "t")
    }

    function GetPressure(): (r: Option<real>)
      reads this
      ensures r.Some? <==> rawData.Some? && "p" in rawData.value.iaqi
      ensures r.Some? ==> r.value == rawData.value.iaqi["p"]
    {
      Reading(rawData, "p")
    }

    function GetCO(): (r: Option<real>)
      reads this
      ensures r.Some? <==> rawData.Some? && "co" in rawData.value.iaqi
      ensures r.Some? ==> r.value == rawData.value.iaqi["co"]
    {
      Reading(rawData, "co")
    }

    function GetNO2(): (r: Option<real>)
      reads this
      ensures r.Some? <==> rawData.Some? && "no2" in rawData.value.iaqi
      ensures r.Some? ==> r.value == rawData.value.iaqi["no2"]
    {
      Reading(rawData, "no2")
    }

    function GetO3(): (r: Option<real>)
      reads this
      ensures r.Some? <==> rawData.Some? && "o3" in rawData.value.iaqi
      ensures r.Some? ==> r.value == rawData.value.iaqi["o3"]
    {
      Reading(rawData, "o3")
    }

    function GetPM10(): (r: Option<real>)
      reads this
      ensures r.Some? <==> rawData.Some? && "pm10" in rawData.value.iaqi
      ensures r.Some? ==> r.value == rawData.value.iaqi["pm10"]
    {
      Reading(rawData, "pm10")
    }

    function GetPM25(): (r: Option<real>)
      reads this
      ensures r.Some? <==> rawData.Some? && "pm25" in rawData.value.iaqi
      ensures r.Some? ==> r.value == rawData.value.iaqi["pm25"]
    {
      Reading(rawData, "pm25")
    }

    function GetSO2(): (r: Option<real>)
      reads this
      ensures r.Some? <==> rawData.Some? && "so2" in rawData.value.iaqi
      ensures r.Some? ==> r.value == rawData.value.iaqi["so2"]
    {
      Reading(rawData, "so2")
    }
  }
}
