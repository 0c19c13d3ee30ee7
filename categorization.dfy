/**
 * The AQI categorisation of `getAQI`: an integer AQI is mapped to the US EPA
 * category narrative (pollution level, health implications, cautionary
 * statement) by a run of independent `if` blocks in which a later match
 * overwrites an earlier one.
 */
module Categorization {
  import opened Wrappers

  /** The six AQI categories, in the order the source tests them. */
  datatype Band = Good | Moderate | SensitiveGroups | Unhealthy | VeryUnhealthy | Hazardous

  /** The three narrative strings `getAQI` reports. */
  datatype Narrative = Narrative(level: string, health: string, cautionary: string)

  /** The narrative left in place when no band matches: three empty strings. */
  const Unrated := Narrative("", "", "")

  function Level(b: Band): string
  {
    match b
    case Good => "Good"
    case Moderate => "Moderate"
    case SensitiveGroups => "Unhealthy for Sensitive Groups"
    case Unhealthy => "Unhealthy"
    case VeryUnhealthy => "Very Unhealthy"
    case Hazardous => "Hazardous"
  }

  // The narrative texts, one constant per distinct text.
  const SatisfactoryHealth := "Air quality is considered satisfactory, and air pollution poses little or no risk."
  const AcceptableHealth := "Air quality is acceptable, however, for some pollutants there may be a moderate health concern for a very small number of people who are unusually sensitive to air pollution."
  const SensitiveHealth := "Members of sensitive groups may experience health effects. The general public is not likely to be affected."
  const EveryoneHealth := "Everyone may begin to experience health effects; members of sensitive groups may experience more serious health effects."
  const EmergencyHealth := "Health warnings of emergency conditions. The entire population is more likely to be affected."
  const AlertHealth := "Health alert; everyone may experience more serious health effects."

  const NoCaution := "None"
  const LimitProlonged := "Active children and adults, and people with respiratory disease, such as asthma, should limit prolonged outdoor exertion."
  const AvoidProlonged := "Active children and adults, and people with respiratory disease, such as asthma, should avoid prolonged outdoor exertion; everyone else, especially children, should limit prolonged outdoor exertion."
  const AvoidAll := "Active children and adults, and people with respiratory disease, such as asthma, should avoid all outdoor exertion; everyone else, especially children, should limit prolonged outdoor exertion."
  const EveryoneAvoidAll := "Everyone should avoid all outdoor exertion."

  function Health(b: Band): string
  {
    match b
    case Good => SatisfactoryHealth
    case Moderate => AcceptableHealth
    case SensitiveGroups => SensitiveHealth
    case Unhealthy => EveryoneHealth
    case VeryUnhealthy => EmergencyHealth
    case Hazardous => AlertHealth
  }

  function Cautionary(b: Band): string
  {
    match b
    case Good => NoCaution
    case Moderate => LimitProlonged
    case SensitiveGroups => LimitProlonged
    case Unhealthy => AvoidProlonged
    case VeryUnhealthy => AvoidAll
    case Hazardous => EveryoneAvoidAll
  }

  function Describe(b: Band): Narrative
  {
    Narrative(Level(b), Health(b), Cautionary(b))
  }

  /** The six level names a non-negative AQI can be reported under. */
  const LevelNames: set<string> :=
    {"Good", "Moderate", "Unhealthy for Sensitive Groups", "Unhealthy", "Very Unhealthy", "Hazardous"}

  /**
   * The band whose assignment survives the run of `if` blocks, found by asking
   * the last block first. The contract states the resulting intervals: the
   * Very Unhealthy test admits 300, but the later Hazardous test (`>= 300`)
   * claims it, so Very Unhealthy ends at 299. Below zero nothing matches.
   */
  function BandOf(aqi: int): (r: Option<Band>)
    ensures r == None <==> aqi < 0
    ensures r == Some(Good) <==> 0 <= aqi <= 50
    ensures r == Some(Moderate) <==> 51 <= aqi <= 100
    ensures r == Some(SensitiveGroups) <==> 101 <= aqi <= 150
    ensures r == Some(Unhealthy) <==> 151 <= aqi <= 200
    ensures r == Some(VeryUnhealthy) <==> 201 <= aqi <= 299
    ensures r == Some(Hazardous) <==> aqi >= 300
  {
    if aqi >= 300 then Some(Hazardous)
    else if 201 <= aqi <= 300 then Some(VeryUnhealthy)
    else if 151 <= aqi <= 200 then Some(Unhealthy)
    else if 101 <= aqi <= 150 then Some(SensitiveGroups)
    else if 51 <= aqi <= 100 then Some(Moderate)
    else if 0 <= aqi <= 50 then Some(Good)
    else None
  }

  /**
   * The category table of the US EPA Air Quality Index, whose Very Unhealthy
   * band is 201 to 300 and whose Hazardous band starts at 301.
   */
  function EpaBandOf(aqi: int): Option<Band>
  {
    if aqi < 0 then None
    else if aqi <= 50 then Some(Good)
    else if aqi <= 100 then Some(Moderate)
    else if aqi <= 150 then Some(SensitiveGroups)
    else if aqi <= 200 then Some(Unhealthy)
    else if aqi <= 300 then Some(VeryUnhealthy)
    else Some(Hazardous)
  }

  /**
   * The source's bands agree with the EPA table everywhere except at exactly
   * 300, which the source reports as Hazardous instead of Very Unhealthy.
   */
  lemma DiffersFromEpaOnlyAt300(aqi: int)
    ensures BandOf(aqi) != EpaBandOf(aqi) <==> aqi == 300
    ensures aqi == 300 ==> BandOf(aqi) == Some(Hazardous) && EpaBandOf(aqi) == Some(VeryUnhealthy)
  {
  }

  /** The narrative `getAQI` reports for an integer AQI. */
  function NarrativeOf(aqi: int): Narrative
  {
    match BandOf(aqi)
    case Some(b) => Describe(b)
    case None => Unrated
  }

  /**
   * The categorisation as the source runs it: three narrative variables start
   * empty and each matching `if` block overwrites all three.
   */
  method Categorize(aqi: int) returns (level: string, health: string, cautionary: string)
    ensures Narrative(level, health, cautionary) == NarrativeOf(aqi)
    ensures level == "" <==> aqi < 0
    ensures aqi < 0 ==> health == "" && cautionary == ""
    ensures aqi >= 0 ==> level in LevelNames
  {
    level, health, cautionary := "", "", "";
    if aqi >= 0 && aqi <= 50 {
      level, health, cautionary := Level(Good), Health(Good), Cautionary(Good);
    }
    if aqi >= 51 && aqi <= 100 {
      level, health, cautionary := Level(Moderate), Health(Moderate), Cautionary(Moderate);
    }
    if aqi >= 101 && aqi <= 150 {
      level, health, cautionary := Level(SensitiveGroups), Health(SensitiveGroups), Cautionary(SensitiveGroups);
    }
    if aqi >= 151 && aqi <= 200 {
      level, health, cautionary := Level(Unhealthy), Health(Unhealthy), Cautionary(Unhealthy);
    }
    if aqi >= 201 && aqi <= 300 {
      level, health, cautionary := Level(VeryUnhealthy), Health(VeryUnhealthy), Cautionary(VeryUnhealthy);
    }
    if aqi >= 300 {
      level, health, cautionary := Level(Hazardous), Health(Hazardous), Cautionary(Hazardous);
    }
  }

  /** A level name identifies its band: the six names are pairwise distinct. */
  lemma LevelNamesDistinct(b1: Band, b2: Band)
    ensures Level(b1) == Level(b2) <==> b1 == b2
  {
  }

  /**
   * Moderate and Unhealthy for Sensitive Groups carry the same cautionary
   * statement; every other pair of bands carries different ones.
   */
  lemma CautionaryShared(b1: Band, b2: Band)
    ensures Cautionary(b1) == Cautionary(b2) <==>
      b1 == b2 || {b1, b2} == {Moderate, SensitiveGroups}
  {
  }

  /** The health-implications text also identifies its band. */
  lemma HealthTextsDistinct(b1: Band, b2: Band)
    ensures Health(b1) == Health(b2) <==> b1 == b2
  {
  }

  /**
   * PHP's `(int)` cast of a float: the fractional part is dropped, so the
   * result moves toward zero.
   */
  function TruncateToInt(x: real): (n: int)
    ensures x >= 0.0 ==> n as real <= x < n as real + 1.0
    ensures x < 0.0 ==> n as real - 1.0 < x <= n as real
  {
    if x >= 0.0 then x.Floor else -((-x).Floor)
  }
}
