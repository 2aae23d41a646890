/** What the dashboard picks out of one city's forecast: the current periods, the hourly strip and
    the hero panel with its fallbacks from the hourly to the daily forecast and back. */
module Selection {
  import opened Optional
  import opened Text
  import opened Forecast
  import opened Conditions
  import opened Cities

  /** `pickHourlyNow` and `pickDailyNow`, which are the same function: the first entry of the list
      (itself null when the upstream entry is null), or null when the list is missing or empty. */
  function PickNow(periods: Option<PeriodList>): (p: Option<Period>)
    ensures periods.None? || periods.value == [] ==> p.None?
    ensures periods.Some? && periods.value != [] ==> p == periods.value[0]
  {
    if periods.Some? && |periods.value| > 0 then periods.value[0] else None
  }

  /** The members of a period reached with optional chaining (`p?.temperature` and so on). */
  function TemperatureOf(p: Option<Period>): Option<int> { if p.Some? then p.value.temperature else None }
  function UnitOf(p: Option<Period>): Option<string> { if p.Some? then p.value.temperatureUnit else None }
  function ShortForecastOf(p: Option<Period>): Option<string> { if p.Some? then p.value.shortForecast else None }
  function WindSpeedOf(p: Option<Period>): Option<string> { if p.Some? then p.value.windSpeed else None }
  function WindDirectionOf(p: Option<Period>): Option<string> { if p.Some? then p.value.windDirection else None }
  function PrecipitationOf(p: Option<Period>): Option<int> { if p.Some? then p.value.probabilityOfPrecipitation else None }
  function HumidityOf(p: Option<Period>): Option<int> { if p.Some? then p.value.relativeHumidity else None }
  function SkyCoverOf(p: Option<Period>): Option<int> { if p.Some? then p.value.skyCover else None }

  const HourlyStripLength := 18

  /** `renderHourlyStrip`'s `(data.hourlyPeriods || []).slice(0, 18)`: the first eighteen hourly
      periods, or all of them when there are fewer, in their order. */
  function HourlyStrip(data: CityData): (hours: PeriodList)
    ensures var all := data.hourlyPeriods.GetOr([]);
            && |hours| == (if |all| < HourlyStripLength then |all| else HourlyStripLength)
            && hours == all[..|hours|]
  {
    var all := data.hourlyPeriods.GetOr([]);
    if |all| <= HourlyStripLength then all else all[..HourlyStripLength]
  }

  /** The temperature shown for a city, `hour0?.temperature ?? daily0?.temperature ?? null`: the
      current hour's when it has one (zero included), the daily period's otherwise. */
  function PreferredTemperature(hour0: Option<Period>, daily0: Option<Period>): (t: Option<int>)
    ensures t.Some? <==> TemperatureOf(hour0).Some? || TemperatureOf(daily0).Some?
    ensures TemperatureOf(hour0).Some? ==> t == TemperatureOf(hour0)
    ensures TemperatureOf(hour0).None? ==> t == TemperatureOf(daily0)
  {
    TemperatureOf(hour0).OrElse(TemperatureOf(daily0))
  }

  /** The short forecast of a city, `daily0?.shortForecast ?? hour0?.shortForecast`: the daily
      period's first, the hourly period's otherwise. */
  function PreferredShortForecast(hour0: Option<Period>, daily0: Option<Period>): (s: Option<string>)
    ensures s.Some? <==> ShortForecastOf(daily0).Some? || ShortForecastOf(hour0).Some?
    ensures ShortForecastOf(daily0).Some? ==> s == ShortForecastOf(daily0)
    ensures ShortForecastOf(daily0).None? ==> s == ShortForecastOf(hour0)
  {
    ShortForecastOf(daily0).OrElse(ShortForecastOf(hour0))
  }

  /** `[windSpeed, windDir].filter(Boolean).join(" ").trim() || "—"`: the non-empty parts joined by
      a space and trimmed, or the dash when nothing but white space is left. */
  function WindLine(speed: string, direction: string): (line: string)
    ensures line != ""
    ensures AllSpace(speed) && AllSpace(direction) ==> line == "—"
    ensures !(AllSpace(speed) && AllSpace(direction)) ==> !IsSpace(line[0]) && !IsSpace(line[|line| - 1])
    ensures direction == "" && !AllSpace(speed) ==> line == Trim(speed)
    ensures speed == "" && !AllSpace(direction) ==> line == Trim(direction)
    ensures speed != "" && direction != "" && !(AllSpace(speed) && AllSpace(direction)) ==>
              line == Trim(speed + " " + direction)
  {
    var joined := if speed != "" && direction != "" then speed + " " + direction else speed + direction;
    var t := Trim(joined);
    JoinedSpace(speed, direction);
    TrimEmpty(joined);
    assert speed + [] == speed && [] + direction == direction;
    if t == "" then "—" else t
  }

  /** The joined wind parts are all white space exactly when both parts are. */
  lemma JoinedSpace(speed: string, direction: string)
    ensures var joined := if speed != "" && direction != "" then speed + " " + direction else speed + direction;
            AllSpace(joined) <==> AllSpace(speed) && AllSpace(direction)
  {
    var joined := if speed != "" && direction != "" then speed + " " + direction else speed + direction;
    if AllSpace(joined) {
      forall k | 0 <= k < |speed| ensures IsSpace(speed[k]) { assert joined[k] == speed[k]; }
      forall k | 0 <= k < |direction| ensures IsSpace(direction[k]) {
        assert joined[|joined| - |direction| + k] == direction[k];
      }
    }
  }

  /** A wind speed and a direction that are not empty and carry no surrounding white space are
      shown as "speed direction". */
  lemma WindLineOfParts(speed: string, direction: string)
    requires speed != "" && direction != ""
    requires !IsSpace(speed[0]) && !IsSpace(direction[|direction| - 1])
    ensures WindLine(speed, direction) == speed + " " + direction
  {
    var joined := speed + " " + direction;
    assert joined[0] == speed[0] && joined[|joined| - 1] == direction[|direction| - 1];
    TrimUntouched(joined);
  }

  /** The hero panel of the selected city, as data. */
  datatype Hero = Hero(
    cityName: string,
    temperature: Option<int>,
    unit: string,
    condition: string,
    feels: Option<int>,
    precipitation: Option<int>,
    humidity: Option<int>,
    skyCover: Option<int>,
    wind: string,
    theme: WeatherClass)

  /** `renderHero`: temperature and unit from the current hour, else the first daily period; the
      condition and the wind from the daily period, else the hour; precipitation, humidity and sky
      cover from the hour only.  The feels line ends up showing the plain temperature, which
      overwrites the feels-like value written first, and the weather theme follows the condition. */
  function RenderHero(city: City, data: CityData): (h: Hero)
    ensures var daily0, hour0 := PickNow(data.dailyPeriods), PickNow(data.hourlyPeriods);
            && h.cityName == city.name
            && h.temperature == PreferredTemperature(hour0, daily0)
            && h.feels == h.temperature
            && (UnitOf(hour0).Some? ==> h.unit == UnitOf(hour0).value)
            && (UnitOf(hour0).None? && UnitOf(daily0).Some? ==> h.unit == UnitOf(daily0).value)
            && (UnitOf(hour0).None? && UnitOf(daily0).None? ==> h.unit == "")
            && (ShortForecastOf(daily0).None? && ShortForecastOf(hour0).None? ==> h.condition == "—")
            && h.theme == ConditionClass(h.condition)
            && h.precipitation == PrecipitationOf(hour0)
            && h.humidity == HumidityOf(hour0)
            && h.skyCover == SkyCoverOf(hour0)
            && h.wind == WindLine(WindSpeedOf(daily0).OrElse(WindSpeedOf(hour0)).GetOr(""),
                                  WindDirectionOf(daily0).OrElse(WindDirectionOf(hour0)).GetOr(""))
            && h.wind != ""
  {
    var daily0 := PickNow(data.dailyPeriods);
    var hour0 := PickNow(data.hourlyPeriods);
    var temp := PreferredTemperature(hour0, daily0);
    var unit := UnitOf(hour0).OrElse(UnitOf(daily0)).GetOr("");
    var short := PreferredShortForecast(hour0, daily0).GetOr("—");
    var windSpeed := WindSpeedOf(daily0).OrElse(WindSpeedOf(hour0)).GetOr("");
    var windDir := WindDirectionOf(daily0).OrElse(WindDirectionOf(hour0)).GetOr("");
    Hero(city.name, temp, unit, short, temp, PrecipitationOf(hour0), HumidityOf(hour0), SkyCoverOf(hour0),
         WindLine(windSpeed, windDir), ConditionClass(short))
  }

  /** A current-hour temperature of zero is shown, not skipped for the daily one. */
  lemma HeroKeepsZero(city: City, data: CityData)
    requires TemperatureOf(PickNow(data.hourlyPeriods)) == Some(0)
    ensures RenderHero(city, data).temperature == Some(0)
    ensures RenderHero(city, data).feels == Some(0)
  {
  }

  /** With no current-hour temperature (no hourly list, an empty one, or a first hour without a
      temperature) the hero shows the daily temperature, or nothing. */
  lemma HeroTemperatureFallsBack(city: City, data: CityData)
    requires TemperatureOf(PickNow(data.hourlyPeriods)).None?
    ensures RenderHero(city, data).temperature == TemperatureOf(PickNow(data.dailyPeriods))
  {
  }

  /** The daily condition wins over the hourly one; with neither the condition is "—". */
  lemma HeroConditionPrefersDaily(city: City, data: CityData)
    ensures var daily0, hour0 := PickNow(data.dailyPeriods), PickNow(data.hourlyPeriods);
            var h := RenderHero(city, data);
            && (ShortForecastOf(daily0).Some? ==> h.condition == ShortForecastOf(daily0).value)
            && (ShortForecastOf(daily0).None? && ShortForecastOf(hour0).Some? ==> h.condition == ShortForecastOf(hour0).value)
            && (ShortForecastOf(daily0).None? && ShortForecastOf(hour0).None? ==> h.condition == "—")
  {
  }

  /** Speed and direction each come from the daily period first: a daily speed and direction
      without surrounding white space are shown as "speed direction", whatever the hour says. */
  lemma HeroWindPrefersDaily(city: City, data: CityData, speed: string, direction: string)
    requires var daily0 := PickNow(data.dailyPeriods);
             WindSpeedOf(daily0) == Some(speed) && WindDirectionOf(daily0) == Some(direction)
    requires speed != "" && direction != "" && !IsSpace(speed[0]) && !IsSpace(direction[|direction| - 1])
    ensures RenderHero(city, data).wind == speed + " " + direction
  {
    WindLineOfParts(speed, direction);
  }

  /** With neither a daily speed nor a daily direction, the wind line is the current hour's. */
  lemma HeroWindFallsBack(city: City, data: CityData)
    requires var daily0 := PickNow(data.dailyPeriods);
             WindSpeedOf(daily0).None? && WindDirectionOf(daily0).None?
    ensures var hour0 := PickNow(data.hourlyPeriods);
            RenderHero(city, data).wind == WindLine(WindSpeedOf(hour0).GetOr(""), WindDirectionOf(hour0).GetOr(""))
  {
  }
}
