/** The forecast data the proxy passes through and the dashboard reads. */
module Forecast {
  import opened Optional

  /** One forecast period as the upstream weather service returns it, reduced to the members the
      dashboard reads; each numeric member that may be absent is an option. */
  datatype Period = Period(
    startTime: string,
    isDaytime: bool,
    temperature: Option<int>,
    temperatureUnit: Option<string>,
    shortForecast: Option<string>,
    windSpeed: Option<string>,
    windDirection: Option<string>,
    probabilityOfPrecipitation: Option<int>,
    relativeHumidity: Option<int>,
    skyCover: Option<int>)

  /** A JSON array of periods; an entry may be `null`. */
  type PeriodList = seq<Option<Period>>

  /** The envelope one city's forecast arrives in; a member may be missing from the JSON. */
  datatype CityData = CityData(
    updated: Option<string>,
    dailyPeriods: Option<PeriodList>,
    hourlyPeriods: Option<PeriodList>)
}
