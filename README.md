# WAQI client: a Dafny model

This project models the core of the `WAQI` PHP client for the World Air Quality
Index real-time feed API. The client holds an access token and the raw data of
the last observation it fetched. It fetches an observation by station name or
by geographic coordinates. It then answers questions about the stored
observation: the AQI and its US EPA category narrative, the station, the
dominant pollutant and nine pollutant readings.

Modules:

- `Wrappers` (`wrappers.dfy`): `Option`, standing for PHP's nullable values.
- `Payload` (`payload.dfy`): the decoded response envelope `{status, data}`,
  with each member as PHP sees it after `json_decode`. It also holds the station
  payload (`Snapshot`) that a successful response carries.
- `Categorization` (`categorization.dfy`): `getAQI`'s run of `if` blocks as the
  method `Categorize`. It is specified by `BandOf`, which states the resulting
  AQI intervals, and compared with the EPA table in `EpaBandOf`.
- `Responses` (`responses.dfy`): what the private `request` does with a decoded
  envelope, as a pure step of a state machine over the raw data. The module
  holds lemmas about sequences of responses.
- `Paths` (`paths.dfy`): the two request paths and a reader that parses them
  back.
- `Client` (`client.dfy`): the class `WAQI` with its `rawData` field, its fetch
  methods and its getters.

Behaviour reproduced as the code has it, including where it departs from the
US EPA table or from what a caller might expect:

- An AQI of exactly 300 is Hazardous. The Very Unhealthy test admits 201..300,
  but the later Hazardous test is `>= 300` and overwrites it. The EPA table
  puts 300 in Very Unhealthy, and `DiffersFromEpaOnlyAt300` proves that this is
  the only point where the two disagree.
- A negative AQI after the integer cast matches no band, so all three narrative
  strings stay empty. The cast truncates toward zero, so a raw AQI of -0.5 is
  Good.
- An `"error"` response whose `data` is an unrecognised message, is missing or
  is null returns quietly, and so does any status other than `"ok"` and
  `"error"`. None of these is surfaced as an error.
- An `"ok"` response with missing or null `data` clears the stored
  observation. An `"ok"` response whose `data` is not an object fails with
  PHP's TypeError, because the property is typed `?stdClass`, and the stored
  observation is kept.
- The `switch` on an error message compares loosely, so `data: true` raises
  UnknownStation.
- The pollutant getters read through PHP's `??`. They return no reading when
  nothing has been fetched yet, rather than failing.

## Model

| member | source | states |
|---|---|---|
| `Categorization.BandOf` | src/WAQI.php:109-149 | the band that survives the `if` run: none below 0, Good 0..50, Moderate 51..100, Unhealthy for Sensitive Groups 101..150, Unhealthy 151..200, Very Unhealthy 201..299, Hazardous from 300 on (300 included) |
| `Categorization.Categorize` | src/WAQI.php:105-149 | the sequential overwrites produce exactly the narrative of `BandOf`; the level is empty iff the AQI is negative, and then health and cautionary texts are empty too; for a non-negative AQI the level is one of the six level names |
| `Categorization.DiffersFromEpaOnlyAt300` | src/WAQI.php:138-149 | the bands as written agree with the EPA table for every AQI except 300, which is Hazardous here and Very Unhealthy there |
| `Categorization.LevelNamesDistinct` | src/WAQI.php:111-146 | two bands have the same level name iff they are the same band |
| `Categorization.HealthTextsDistinct` | src/WAQI.php:112-147 | two bands have the same health-implications text iff they are the same band |
| `Categorization.CautionaryShared` | src/WAQI.php:113-148 | two bands share a cautionary statement iff they are equal or are Moderate and Unhealthy for Sensitive Groups |
| `Categorization.TruncateToInt` | src/WAQI.php:103 | PHP's `(int)` cast of a float: the result is within one of the input, on the side toward zero |
| `Responses.Message` | src/Exceptions/UnknownStation.php:23-26 | each domain error carries the message its exception class passes to its parent constructor, and each message belongs to exactly one error: "Unknown monitoring station or city", "Request Quota has been exceeded", "Invalid access token" |
| `Responses.MatchesLabel` | src/WAQI.php:389-395 | PHP's loose `==` of the `switch` against a case label holds exactly for the label string itself and for `true`; numbers, arrays, objects, `false` and other strings match no label |
| `Responses.MessagesDistinct` | src/Exceptions/QuotaExceeded.php:28-31 | the three exception messages are pairwise distinct |
| `Responses.Classify` | src/WAQI.php:385-398 | status "ok" stores an object payload, and clears the raw data for missing or null `data`; any other `data` is rejected; status "error" with "Unknown station", "Over quota" or "Invalid key" raises UnknownStation, QuotaExceeded or InvalidAccessToken; an error is raised only for status "error" with a string or `true`; an unknown message, missing or null `data`, and every other status are ignored |
| `Responses.Step` | src/WAQI.php:385-398 | the raw data changes only on status "ok"; every failure leaves it unchanged; an "ok" object payload becomes the raw data and the call completes |
| `Responses.RunSnoc` | src/WAQI.php:385-386 | handling one more response after a sequence is one more step from the state the sequence reached |
| `Responses.RunKeepsLastStored` | src/WAQI.php:385-386 | after any sequence of responses the raw data is what the last storing response carried, or the initial raw data if none stored anything |
| `Responses.StepIdempotent` | src/WAQI.php:385-398 | handling the same response twice ends in the same state and outcome as handling it once |
| `Responses.LooseMatchOnTrue` | src/WAQI.php:389-391 | an error response whose `data` is `true` raises UnknownStation, since `switch` compares loosely |
| `Paths.StationPath` | src/WAQI.php:65 | the station path reads back as `feed/<station>/`, or `feed/here/` when no station is given |
| `Paths.GeoPath` | src/WAQI.php:82 | the geo path reads back as `feed/geo:<lat>;<lon>/`, and its coordinates parse back unchanged when the latitude holds no `;` |
| `Paths.GeoRoundTrip` | src/WAQI.php:82 | the `geo:<lat>;<lon>` target splits back into its two coordinates |
| `Paths.StationPathInjective` | src/WAQI.php:65 | two named stations share a path iff they have the same name |
| `Paths.OmittedStationIsHere` | src/WAQI.php:65 | omitting the station requests the same path as naming the station `here` |
| `Paths.GeoNamedStationCollides` | src/WAQI.php:65 | a station named `geo:<lat>;<lon>` is requested under the same path as the coordinate lookup |
| `Client.Reading` | src/WAQI.php:228-341 | the `->iaqi-><code>->v ?? null` read: a reading exists iff raw data is stored and has the code, and it is the stored value |
| `Client.ReadingAfterFetch` | src/WAQI.php:226-342 | after a fetch that stores a payload, the reading for a code is the payload's reading for it, or none when the payload lacks that code |
| `Client.WAQI.constructor` | src/WAQI.php:34-46 | a new client keeps its token and has no raw data |
| `Client.WAQI.GetObservationByStation` | src/WAQI.php:62-69 | the new raw data and the outcome are one `Step` on the response to the station path and the token query |
| `Client.WAQI.GetObservationByGeoLocation` | src/WAQI.php:79-86 | the new raw data and the outcome are one `Step` on the response to the geo path and the token query |
| `Client.WAQI.Request` | src/WAQI.php:363-399 | the `if`/`switch` code does exactly what `Step` specifies, and no failure changes the raw data |
| `Client.WAQI.GetAQI` | src/WAQI.php:101-157 | the reported aqi is the truncated raw AQI as a float, the narrative is that of its band; the level is empty iff the raw AQI is at most -1; a raw AQI in [299, 300) is Very Unhealthy and from 300 on is Hazardous |
| `Client.WAQI.GetMonitoringStation` | src/WAQI.php:182-193 | id, url and coordinates are the payload's, the name is the entity-decoded city name |
| `Client.WAQI.GetPrimaryPollutant` | src/WAQI.php:351-354 | the dominant pollutant code of the payload |
| `Client.WAQI.GetHumidity` | src/WAQI.php:226-229 | a reading exists iff raw data is stored and has code `h`, and it is the stored one |
| `Client.WAQI.GetTemperature` | src/WAQI.php:238-241 | a reading exists iff raw data is stored and has code `t`, and it is the stored one |
| `Client.WAQI.GetPressure` | src/WAQI.php:250-253 | a reading exists iff raw data is stored and has code `p`, and it is the stored one |
| `Client.WAQI.GetCO` | src/WAQI.php:264-267 | a reading exists iff raw data is stored and has code `co`, and it is the stored one |
| `Client.WAQI.GetNO2` | src/WAQI.php:279-282 | a reading exists iff raw data is stored and has code `no2`, and it is the stored one |
| `Client.WAQI.GetO3` | src/WAQI.php:293-296 | a reading exists iff raw data is stored and has code `o3`, and it is the stored one |
| `Client.WAQI.GetPM10` | src/WAQI.php:309-312 | a reading exists iff raw data is stored and has code `pm10`, and it is the stored one |
| `Client.WAQI.GetPM25` | src/WAQI.php:325-328 | a reading exists iff raw data is stored and has code `pm25`, and it is the stored one |
| `Client.WAQI.GetSO2` | src/WAQI.php:339-342 | a reading exists iff raw data is stored and has code `so2`, and it is the stored one |

## Left out

- The HTTP exchange through Guzzle, and the branch that prints the request and response and exits on a client or request exception (src/WAQI.php:365-376). These are I/O and process termination; each fetch receives the decoded response from a `transport` parameter instead.
- How Guzzle resolves the relative path against the endpoint `https://api.waqi.info/api`. The model stops at the relative path and the `token=` query string.
- JSON decoding of the response body and the `JsonException` it can throw (src/WAQI.php:378-383). Also left out is the rewrapping of Guzzle and JSON exceptions as `RuntimeException` (src/WAQI.php:66-67, 83-84). A response that decodes to something other than an object is not modelled.
- `getAttributions` (src/WAQI.php:204-218): a `json_encode`/`json_decode` round trip of the attribution list. The list is kept in `Snapshot` but not exposed.
- `getMeasurementTime` (src/WAQI.php:166-169): it depends on PHP's date and time-zone parsing.
- `html_entity_decode` is a function parameter of `GetMonitoringStation`. Coordinates enter `GeoPath` as already formatted text, since PHP's float-to-string conversion is not modelled.
- Client.WAQI.GetAQI requires stored raw data. With none stored, PHP would warn, read the AQI as null and report 0 and Good; that case is not modelled.
- Client.WAQI.GetMonitoringStation requires stored raw data. With none stored, `html_entity_decode(null)` fails under strict types; that case is not modelled.
- Client.WAQI.GetPrimaryPollutant requires stored raw data. With none stored, PHP would warn and return ""; that case is not modelled.
- The payload's members are typed as they normally arrive: an integer `idx`, a two-element `geo` and a numeric `aqi`. The casts of other shapes are not modelled; a non-numeric `aqi` such as "-" would cast to 0. A `(int)` cast of a float outside the integer range, or of NaN, is not modelled either.
- Pollutant readings and coordinates are `real` values, passed through unchanged. No floating-point arithmetic is done on them.
- src/AirQuality.php is an interface without logic and is not part of this model. The legacy `*Exception.php` classes are not used by the client.
