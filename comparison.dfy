/** The city-to-city comparison: the temperature difference, the precipitation difference and the
    mood line, always of the selected city against the other one. */
module Comparison {
  import opened Optional
  import opened Text
  import opened Forecast
  import opened Conditions
  import opened Cities
  import opened Selection

  function Abs(x: int): (r: nat)
    ensures r == x || r == -x
  {
    if x < 0 then -x else x
  }

  /** The verdict of the temperature line, naming the selected city. */
  datatype Verdict = Same | Warmer(city: string) | Colder(city: string)
  {
    function Text(): string
    {
      match this
      case Same => "Same temp"
      case Warmer(city) => city + " is warmer"
      case Colder(city) => city + " is colder"
    }
  }

  /** The temperature line: unknown when a temperature is missing, else the size of the difference
      and the verdict. */
  datatype TempLine = TempUnknown | TempDelta(degrees: nat, verdict: Verdict)
  {
    function Text(): string
    {
      match this
      case TempUnknown => "Δ Temp: —"
      case TempDelta(d, v) => "Δ Temp: " + NatText(d) + "° (" + v.Text() + ")"
    }
  }

  /** The temperature line for the selected city (named `selected`, temperature `a`) against the
      other (temperature `b`): the difference's size, "Same temp" exactly when the two are equal,
      warmer exactly when `a` is higher and colder exactly when it is lower. */
  function CompareTemperatures(selected: string, a: Option<int>, b: Option<int>): (line: TempLine)
    ensures line.TempUnknown? <==> a.None? || b.None?
    ensures line.TempDelta? ==> line.degrees == Abs(a.value - b.value)
    ensures line.TempDelta? ==> (line.verdict == Same <==> a.value == b.value)
    ensures line.TempDelta? ==> (line.verdict == Warmer(selected) <==> a.value > b.value)
    ensures line.TempDelta? ==> (line.verdict == Colder(selected) <==> a.value < b.value)
  {
    if a.None? || b.None? then TempUnknown
    else
      var d := a.value - b.value;
      TempDelta(Abs(d), if d == 0 then Same else if d > 0 then Warmer(selected) else Colder(selected))
  }

  /** The precipitation line: the size of the difference of the two chances, known only when both are. */
  function PrecipitationDelta(a: Option<int>, b: Option<int>): (d: Option<nat>)
    ensures d.Some? <==> a.Some? && b.Some?
    ensures d.Some? ==> d.value == Abs(a.value - b.value)
  {
    if a.None? || b.None? then None else Some(Abs(a.value - b.value))
  }

  function PrecipitationText(d: Option<nat>): string
  {
    if d.None? then "Δ Precip: —" else "Δ Precip: " + NatText(d.value) + "%"
  }

  /** The mood line. */
  datatype Mood = SharedRain | SharedSnow | ClearInBoth | RainIn(city: string) | DifferentSkies
  {
    function Text(): string
    {
      match this
      case SharedRain => "Shared rain."
      case SharedSnow => "Shared snow."
      case ClearInBoth => "Clear in both cities."
      case RainIn(city) => "Rain in " + city + "."
      case DifferentSkies => "Two different skies."
    }
  }

  /** The mood of the lower-cased forecasts `a` (selected city, named `aName`) and `b` (the other city,
      named `bName`), the first that applies of: rain in both, snow in both, clear in both, rain only
      in the selected city, rain only in the other; otherwise two different skies. */
  function MoodOf(a: string, b: string, aName: string, bName: string): (m: Mood)
    ensures m == SharedRain <==> Rainy(a) && Rainy(b)
    ensures m == SharedSnow <==> !(Rainy(a) && Rainy(b)) && Snowy(a) && Snowy(b)
    ensures m == ClearInBoth <==> !(Rainy(a) && Rainy(b)) && !(Snowy(a) && Snowy(b)) && Clearish(a) && Clearish(b)
    ensures m.RainIn? <==> Rainy(a) != Rainy(b) && !(Snowy(a) && Snowy(b)) && !(Clearish(a) && Clearish(b))
    ensures m.RainIn? ==> (m.city == aName && Rainy(a) && !Rainy(b)) || (m.city == bName && !Rainy(a) && Rainy(b))
    ensures m == DifferentSkies <==>
              !Rainy(a) && !Rainy(b) && !(Snowy(a) && Snowy(b)) && !(Clearish(a) && Clearish(b))
  {
    if Rainy(a) && Rainy(b) then SharedRain
    else if Snowy(a) && Snowy(b) then SharedSnow
    else if Clearish(a) && Clearish(b) then ClearInBoth
    else if Rainy(a) && !Rainy(b) then RainIn(aName)
    else if !Rainy(a) && Rainy(b) then RainIn(bName)
    else DifferentSkies
  }

  /** Swapping the two cities gives the same mood, with a one-sided rain now named from the other side. */
  lemma MoodSymmetric(a: string, b: string, aName: string, bName: string)
    ensures MoodOf(b, a, bName, aName) == MoodOf(a, b, aName, bName)
  {
  }

  /** Thunder counts as rain: thunder in both cities is shared rain, even when both also mention snow. */
  lemma ThunderIsSharedRain(a: string, b: string, aName: string, bName: string)
    requires Contains(a, "thunder") && Contains(b, "thunder")
    ensures MoodOf(a, b, aName, bName) == SharedRain
  {
    GroupsSpelt(a);
    GroupsSpelt(b);
  }

  /** Rain in the selected city only, under no shared snow or clear sky, names the selected city. */
  lemma OneSidedRain(a: string, b: string, aName: string, bName: string)
    requires Contains(a, "showers") && !Rainy(b) && !(Snowy(a) && Snowy(b)) && !(Clearish(a) && Clearish(b))
    ensures MoodOf(a, b, aName, bName) == RainIn(aName)
  {
    GroupsSpelt(a);
  }

  /** The comparison as data. */
  datatype Comparison = Comparison(temperature: TempLine, precipitation: Option<nat>, mood: Mood)

  /** What one city contributes to the comparison (null when its forecast is not loaded). */
  datatype Reading = Reading(temperature: Option<int>, precipitation: Option<int>, sky: string)

  /** A city's reading: the temperature with the hero's fallback from the current hour to the first
      daily period, the chance of precipitation of the current hour only, and the lower-cased short
      forecast of the first daily period, else of the current hour, else empty. */
  function ReadingOf(data: Option<CityData>): (r: Reading)
    ensures data.None? ==> r == Reading(None, None, "")
    ensures var hour0 := PickNow(if data.Some? then data.value.hourlyPeriods else None);
            var daily0 := PickNow(if data.Some? then data.value.dailyPeriods else None);
            && r.temperature == PreferredTemperature(hour0, daily0)
            && r.precipitation == PrecipitationOf(hour0)
            && var short := PreferredShortForecast(hour0, daily0).GetOr("");
               |r.sky| == |short| && forall k :: 0 <= k < |short| ==> r.sky[k] == LowerChar(short[k])
  {
    var hour0 := PickNow(if data.Some? then data.value.hourlyPeriods else None);
    var daily0 := PickNow(if data.Some? then data.value.dailyPeriods else None);
    Reading(PreferredTemperature(hour0, daily0), PrecipitationOf(hour0), ToLower(PreferredShortForecast(hour0, daily0).GetOr("")))
  }

  /** `renderComparison` for the selected city `a` and the cached forecasts of the two cities: each
      line compares the selected city's reading with the other city's, the temperature line and the
      precipitation line are known only when both cities have the value, and a one-sided rain names
      one of the two cities. */
  function Compare(a: City, aData: Option<CityData>, bData: Option<CityData>): (c: Comparison)
    ensures var ra, rb := ReadingOf(aData), ReadingOf(bData);
            && c.temperature == CompareTemperatures(a.name, ra.temperature, rb.temperature)
            && c.precipitation == PrecipitationDelta(ra.precipitation, rb.precipitation)
            && c.mood == MoodOf(ra.sky, rb.sky, a.name, Other(a).name)
    ensures var ra, rb := ReadingOf(aData), ReadingOf(bData);
            && (c.temperature.TempUnknown? <==> ra.temperature.None? || rb.temperature.None?)
            && (c.temperature.TempDelta? ==> (c.temperature.verdict == Warmer(a.name) <==> ra.temperature.value > rb.temperature.value))
            && (c.precipitation.Some? <==> ra.precipitation.Some? && rb.precipitation.Some?)
    ensures c.temperature.TempDelta? && c.temperature.verdict != Same ==> c.temperature.verdict.city == a.name
    ensures c.mood.RainIn? ==> c.mood.city == a.name || c.mood.city == Other(a).name
    ensures aData.None? || bData.None? ==> c.temperature.TempUnknown? && c.precipitation.None?
  {
    var ra, rb := ReadingOf(aData), ReadingOf(bData);
    Comparison(
      CompareTemperatures(a.name, ra.temperature, rb.temperature),
      PrecipitationDelta(ra.precipitation, rb.precipitation),
      MoodOf(ra.sky, rb.sky, a.name, Other(a).name))
  }

  /** Selecting the other city turns the comparison around: the same difference with the verdict
      reversed (warmer becomes colder, naming the newly selected city), the same precipitation
      difference and the same mood. */
  lemma {:induction false} CompareFromOtherSide(a: City, aData: Option<CityData>, bData: Option<CityData>)
    requires Known(a)
    ensures var c, d := Compare(a, aData, bData), Compare(Other(a), bData, aData);
            && (c.temperature.TempUnknown? <==> d.temperature.TempUnknown?)
            && (c.temperature.TempDelta? ==> d.temperature.degrees == c.temperature.degrees)
            && (c.temperature.TempDelta? && c.temperature.verdict == Same ==> d.temperature.verdict == Same)
            && (c.temperature.TempDelta? && c.temperature.verdict.Warmer? ==> d.temperature.verdict == Colder(Other(a).name))
            && (c.temperature.TempDelta? && c.temperature.verdict.Colder? ==> d.temperature.verdict == Warmer(Other(a).name))
            && d.precipitation == c.precipitation
            && d.mood == c.mood
  {
    var ra, rb := ReadingOf(aData), ReadingOf(bData);
    assert Other(Other(a)) == a;
    MoodSymmetric(ra.sky, rb.sky, a.name, Other(a).name);
  }

  /** The temperature line reads back: it is the dash line exactly when the line is unknown, and
      otherwise the digits after "Δ Temp: " give the difference, followed by the verdict. */
  lemma TempLineReadsBack(line: TempLine)
    ensures line.TempUnknown? <==> line.Text() == "Δ Temp: —"
    ensures line.TempDelta? ==>
              var t := line.Text();
              var n := RunLength(t[8..], IsDigit);
              && t[..8] == "Δ Temp: "
              && Decimal(t[8..][..n]) == line.degrees
              && t[8..][n..] == "° (" + line.verdict.Text() + ")"
  {
    if line.TempDelta? {
      var t, digits, tail := line.Text(), NatText(line.degrees), "° (" + line.verdict.Text() + ")";
      assert t == "Δ Temp: " + (digits + tail);
      assert t[8..] == digits + tail;
      RunOver(digits, tail, IsDigit);
      NatTextRoundTrip(line.degrees);
      assert t[8] == digits[0];
    }
  }

  /** The precipitation line reads back in the same way: the dash line exactly when the difference is
      unknown, and otherwise the digits after "Δ Precip: " give it, followed by "%". */
  lemma PrecipitationTextReadsBack(d: Option<nat>)
    ensures d.None? <==> PrecipitationText(d) == "Δ Precip: —"
    ensures d.Some? ==>
              var t := PrecipitationText(d);
              var n := RunLength(t[10..], IsDigit);
              && t[..10] == "Δ Precip: "
              && Decimal(t[10..][..n]) == d.value
              && t[10..][n..] == "%"
  {
    if d.Some? {
      var t, digits := PrecipitationText(d), NatText(d.value);
      assert t == "Δ Precip: " + (digits + "%");
      assert t[10..] == digits + "%";
      RunOver(digits, "%", IsDigit);
      NatTextRoundTrip(d.value);
      assert t[10] == digits[0];
    }
  }

  /** Different verdicts read differently, so the line names the verdict unambiguously. */
  lemma VerdictTextNames(v: Verdict, w: Verdict)
    requires v.Text() == w.Text()
    ensures v == w
  {
    var t := v.Text();
    if v.Same? || w.Same? {
    } else {
      var n := |v.city|;
      assert |w.city| == n;
      assert t[n + 4] == (if v.Warmer? then 'w' else 'c');
      assert w.Text()[n + 4] == (if w.Warmer? then 'w' else 'c');
      assert v.city == t[..n] == w.Text()[..n] == w.city;
    }
  }

  /** Different moods read differently, so the line names the mood (and a one-sided rain its city)
      unambiguously. */
  lemma MoodTextNames(m: Mood, o: Mood)
    requires m.Text() == o.Text()
    ensures m == o
  {
    var t := m.Text();
    assert t[0] == o.Text()[0];
    if m.RainIn? && o.RainIn? {
      var n := |m.city|;
      assert |o.city| == n;
      assert m.city == t[8..8 + n] == o.Text()[8..8 + n] == o.city;
    } else if m.SharedRain? || m.SharedSnow? {
      assert t[7] == o.Text()[7];
    }
  }
}
