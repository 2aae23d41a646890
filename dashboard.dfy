/** The page's state: which city is selected and the forecast last loaded for each of the two, with
    the two transitions that change it (selecting a city, and a city's forecast arriving). */
module Dashboard {
  import opened Optional
  import opened Forecast
  import opened Cities
  import opened Selection
  import opened ForecastStrip
  import opened Comparison

  /** What is drawn for the selected city: the hero panel, the 7-day strip and the hourly strip. */
  datatype View = View(hero: Hero, days: seq<DayEntry>, hours: PeriodList)

  function ViewOf(city: City, data: CityData): View
  {
    View(RenderHero(city, data), Strip(data.dailyPeriods.GetOr([])), HourlyStrip(data))
  }

  /** `renderHero`, `renderForecastStrip` and `renderHourlyStrip` for one city's forecast. */
  method Render(city: City, data: CityData) returns (view: View)
    ensures view == ViewOf(city, data)
    ensures |view.days| <= MaxDays && |view.hours| <= HourlyStripLength
    ensures view.hero.cityName == city.name
  {
    var days := GroupDays(data);
    view := View(RenderHero(city, data), days, HourlyStrip(data));
  }

  /** `renderHourlyStrip` reads `startTime` of every period of the strip, so a null entry among them
      throws, and whatever the caller would have done next (redrawing the comparison) is not done. */
  predicate HourlyStripFails(data: CityData)
  {
    None in HourlyStrip(data)
  }

  class Page {
    /** The selected city. */
    var current: City
    /** The forecast last loaded for each city, null until its first load. */
    var cache: map<Key, Option<CityData>>

    ghost predicate Valid()
      reads this
    {
      Known(current) && Her in cache && Me in cache
    }

    /** The comparison as the current state draws it: the selected city's reading against the other
        city's. */
    function ComparisonNow(): (c: Comparison)
      reads this
      requires Valid()
      ensures Other(current).key != current.key
      ensures var ra, rb := ReadingOf(cache[current.key]), ReadingOf(cache[Other(current).key]);
              && c.temperature == CompareTemperatures(current.name, ra.temperature, rb.temperature)
              && c.precipitation == PrecipitationDelta(ra.precipitation, rb.precipitation)
              && c.mood == MoodOf(ra.sky, rb.sky, current.name, Other(current).name)
      ensures cache[current.key].None? || cache[Other(current).key].None? ==>
                c.temperature.TempUnknown? && c.precipitation.None?
      ensures c.temperature.TempDelta? && c.temperature.verdict != Same ==> c.temperature.verdict.city == current.name
      ensures c.mood.RainIn? ==> c.mood.city == current.name || c.mood.city == Other(current).name
    {
      Compare(current, cache[current.key], cache[Other(current).key])
    }

    /** The module's start: HER selected and nothing loaded. */
    constructor ()
      ensures Valid()
      ensures current == HER && cache == map[Her := None, Me := None]
    {
      current := HER;
      cache := map[Her := None, Me := None];
    }

    /** `setCity`: selects ME exactly when the key is "ME" and HER for any other key, leaves the
        cache as it is, draws the selected city when its forecast is loaded (otherwise the
        condition line says "Loading…", shown as no view), and redraws the comparison unless drawing
        the hourly strip threw first. */
    method SetCity(key: string) returns (view: Option<View>, comparison: Option<Comparison>)
      requires Valid()
      modifies this
      ensures Valid()
      ensures current == (if key == "ME" then ME else HER)
      ensures current.key == Me <==> key == Me.Name()
      ensures cache == old(cache)
      ensures view.Some? <==> cache[current.key].Some?
      ensures view.Some? ==> view.value == ViewOf(current, cache[current.key].value)
      ensures comparison.None? <==> cache[current.key].Some? && HourlyStripFails(cache[current.key].value)
      ensures comparison.Some? ==> comparison.value == ComparisonNow()
    {
      current := if key == "ME" then ME else HER;
      var data := cache[current.key];
      if data.Some? {
        var v := Render(current, data.value);
        view := Some(v);
        if HourlyStripFails(data.value) {
          return view, None;
        }
      } else {
        view := None;
      }
      comparison := Some(ComparisonNow());
    }

    /** `loadCity` once the city's forecast has been fetched (`fetched`; null when the fetch threw, in
        which case nothing changes and nothing is drawn): stores it under the city's key and under no
        other, keeps the selection, draws it only when the city is the selected one, and redraws the
        comparison unless drawing the hourly strip threw first. */
    method LoadCity(city: City, fetched: Option<CityData>) returns (view: Option<View>, comparison: Option<Comparison>)
      requires Valid() && Known(city)
      modifies this
      ensures Valid()
      ensures current == old(current)
      ensures cache == (if fetched.Some? then old(cache)[city.key := fetched] else old(cache))
      ensures Other(city).key != city.key && cache[Other(city).key] == old(cache)[Other(city).key]
      ensures view.Some? <==> fetched.Some? && city.key == current.key
      ensures view.Some? ==> view.value == ViewOf(city, fetched.value)
      ensures comparison.None? <==> fetched.None? || (city.key == current.key && HourlyStripFails(fetched.value))
      ensures comparison.Some? ==> comparison.value == ComparisonNow()
    {
      if fetched.None? {
        return None, None;
      }
      cache := cache[city.key := fetched];
      if current.key == city.key {
        var v := Render(city, fetched.value);
        view := Some(v);
        if HourlyStripFails(fetched.value) {
          return view, None;
        }
      } else {
        view := None;
      }
      comparison := Some(ComparisonNow());
    }
  }

  /** The page's first step: HER selected (`setCity("HER")`) before anything is loaded, so the hero
      says "Loading…" and the comparison knows no temperature. */
  method Start() returns (page: Page, view: Option<View>, comparison: Option<Comparison>)
    ensures fresh(page) && page.Valid()
    ensures page.current == HER && page.cache == map[Her := None, Me := None]
    ensures view.None? && comparison.Some?
    ensures comparison.value.temperature.TempUnknown? && comparison.value.precipitation.None?
  {
    page := new Page();
    view, comparison := page.SetCity("HER");
  }
}
