/** Classification of a short forecast text: the weather class that themes the page, and the
    rainy / snowy / clear tests behind the comparison's mood line. */
module Conditions {
  import opened Text

  /** The six weather classes; `CssClass` is the class name the page uses. */
  datatype WeatherClass = Snow | Thunder | Rain | Fog | Cloudy | Clear
  {
    function CssClass(): (name: string)
      ensures name in {"wx-snow", "wx-thunder", "wx-rain", "wx-fog", "wx-cloudy", "wx-clear"}
    {
      match this
      case Snow => "wx-snow"
      case Thunder => "wx-thunder"
      case Rain => "wx-rain"
      case Fog => "wx-fog"
      case Cloudy => "wx-cloudy"
      case Clear => "wx-clear"
    }
  }

  /** Different classes have different class names. */
  lemma CssClassesDistinct(c: WeatherClass, d: WeatherClass)
    requires c.CssClass() == d.CssClass()
    ensures c == d
  {
    var s, t := c.CssClass(), d.CssClass();
    assert s[3] == t[3] && s[4] == t[4];
  }

  const SnowWords: seq<string> := ["snow", "sleet", "flurr"]
  const ThunderWords: seq<string> := ["thunder"]
  const RainWords: seq<string> := ["rain", "showers", "drizzle"]
  const FogWords: seq<string> := ["fog", "haze"]
  const CloudWords: seq<string> := ["cloud", "overcast"]
  const RainyWords: seq<string> := ["rain", "showers", "drizzle", "thunder"]
  const ClearWords: seq<string> := ["clear", "sunny"]

  /** `t` contains at least one of `words`. */
  predicate MentionsAny(t: string, words: seq<string>)
  {
    exists k | 0 <= k < |words| :: Contains(t, words[k])
  }

  /** One line of the classification: the key words and the class they select. */
  datatype Rule = Rule(words: seq<string>, selects: WeatherClass)

  /** The classification rules, highest priority first; text matching none is clear. */
  const Priority: seq<Rule> := [
    Rule(SnowWords, Snow), Rule(ThunderWords, Thunder), Rule(RainWords, Rain),
    Rule(FogWords, Fog), Rule(CloudWords, Cloudy)]

  /** Reference reading of a priority table: the class of the first rule whose words `t` mentions. */
  function FirstRule(rules: seq<Rule>, t: string): (c: WeatherClass)
    ensures (forall k | 0 <= k < |rules| :: !MentionsAny(t, rules[k].words)) ==> c == Clear
    ensures forall k | 0 <= k < |rules| ::
              MentionsAny(t, rules[k].words) && (forall j | 0 <= j < k :: !MentionsAny(t, rules[j].words))
              ==> c == rules[k].selects
    ensures c == Clear || exists k | 0 <= k < |rules| :: c == rules[k].selects
  {
    if rules == [] then Clear
    else if MentionsAny(t, rules[0].words) then rules[0].selects
    else
      var c := FirstRule(rules[1..], t);
      assert forall k | 1 <= k < |rules| :: rules[k] == rules[1..][k - 1];
      c
  }

  /** `conditionClass`: the lower-cased text is tested against snow, thunder, rain, fog and cloud
      words in that order, and is clear when it mentions none; so it is the priority table read first
      rule first. */
  function ConditionClass(shortForecast: string): (c: WeatherClass)
    ensures c == FirstRule(Priority, ToLower(shortForecast))
  {
    var t := ToLower(shortForecast);
    PriorityInOrder(t);
    GroupsSpelt(t);
    if Contains(t, "snow") || Contains(t, "sleet") || Contains(t, "flurr") then Snow
    else if Contains(t, "thunder") then Thunder
    else if Contains(t, "rain") || Contains(t, "showers") || Contains(t, "drizzle") then Rain
    else if Contains(t, "fog") || Contains(t, "haze") then Fog
    else if Contains(t, "cloud") || Contains(t, "overcast") then Cloudy
    else Clear
  }

  lemma MentionsOne(t: string, a: string)
    ensures MentionsAny(t, [a]) <==> Contains(t, a)
  {
    assert [a][0] == a;
  }

  lemma MentionsTwo(t: string, a: string, b: string)
    ensures MentionsAny(t, [a, b]) <==> Contains(t, a) || Contains(t, b)
  {
    assert [a, b][0] == a && [a, b][1] == b;
  }

  lemma MentionsThree(t: string, a: string, b: string, c: string)
    ensures MentionsAny(t, [a, b, c]) <==> Contains(t, a) || Contains(t, b) || Contains(t, c)
  {
    assert [a, b, c][0] == a && [a, b, c][1] == b && [a, b, c][2] == c;
  }

  lemma MentionsFour(t: string, a: string, b: string, c: string, d: string)
    ensures MentionsAny(t, [a, b, c, d]) <==> Contains(t, a) || Contains(t, b) || Contains(t, c) || Contains(t, d)
  {
    assert [a, b, c, d][0] == a && [a, b, c, d][1] == b && [a, b, c, d][2] == c && [a, b, c, d][3] == d;
  }

  /** The word groups of the classification, spelt out word by word. */
  lemma GroupsSpelt(t: string)
    ensures MentionsAny(t, SnowWords) <==> Contains(t, "snow") || Contains(t, "sleet") || Contains(t, "flurr")
    ensures MentionsAny(t, ThunderWords) <==> Contains(t, "thunder")
    ensures MentionsAny(t, RainWords) <==> Contains(t, "rain") || Contains(t, "showers") || Contains(t, "drizzle")
    ensures MentionsAny(t, FogWords) <==> Contains(t, "fog") || Contains(t, "haze")
    ensures MentionsAny(t, CloudWords) <==> Contains(t, "cloud") || Contains(t, "overcast")
    ensures MentionsAny(t, RainyWords) <==>
              Contains(t, "rain") || Contains(t, "showers") || Contains(t, "drizzle") || Contains(t, "thunder")
  {
    MentionsThree(t, "snow", "sleet", "flurr");
    MentionsOne(t, "thunder");
    MentionsThree(t, "rain", "showers", "drizzle");
    MentionsTwo(t, "fog", "haze");
    MentionsTwo(t, "cloud", "overcast");
    MentionsFour(t, "rain", "showers", "drizzle", "thunder");
  }

  /** Reading the priority table rule by rule. */
  lemma PriorityInOrder(t: string)
    ensures FirstRule(Priority, t) ==
      if MentionsAny(t, SnowWords) then Snow
      else if MentionsAny(t, ThunderWords) then Thunder
      else if MentionsAny(t, RainWords) then Rain
      else if MentionsAny(t, FogWords) then Fog
      else if MentionsAny(t, CloudWords) then Cloudy
      else Clear
  {
    var r1 := [Rule(ThunderWords, Thunder), Rule(RainWords, Rain), Rule(FogWords, Fog), Rule(CloudWords, Cloudy)];
    var r2 := [Rule(RainWords, Rain), Rule(FogWords, Fog), Rule(CloudWords, Cloudy)];
    var r3 := [Rule(FogWords, Fog), Rule(CloudWords, Cloudy)];
    var r4 := [Rule(CloudWords, Cloudy)];
    assert Priority[1..] == r1 && r1[1..] == r2 && r2[1..] == r3 && r3[1..] == r4 && r4[1..] == [];
    assert FirstRule(r4, t) == if MentionsAny(t, CloudWords) then Cloudy else Clear;
    assert FirstRule(r3, t) == if MentionsAny(t, FogWords) then Fog else FirstRule(r4, t);
    assert FirstRule(r2, t) == if MentionsAny(t, RainWords) then Rain else FirstRule(r3, t);
    assert FirstRule(r1, t) == if MentionsAny(t, ThunderWords) then Thunder else FirstRule(r2, t);
  }

  /** The comparison's `rainy`: rain words, or thunder. */
  predicate Rainy(t: string)
  {
    MentionsAny(t, RainyWords)
  }

  /** The comparison's `snowy`: the words of the snow class. */
  predicate Snowy(t: string)
  {
    MentionsAny(t, SnowWords)
  }

  /** The comparison's `clear`: "clear" or "sunny". */
  predicate Clearish(t: string)
  {
    MentionsAny(t, ClearWords)
  }

  /** The two classifiers agree: snowy text is exactly the snow class, and text that is not snowy is
      rainy exactly when it is classed thunder or rain (thunder counts as rain in the comparison). */
  lemma ClassAgreesWithMood(shortForecast: string)
    ensures var t := ToLower(shortForecast);
            && (Snowy(t) <==> ConditionClass(shortForecast) == Snow)
            && (!Snowy(t) ==> (Rainy(t) <==> ConditionClass(shortForecast) in {Thunder, Rain}))
  {
    GroupsSpelt(ToLower(shortForecast));
  }

  /** Thunder outranks rain: text mentioning thunder and no snow word is classed thunder, even when it
      also mentions rain. */
  lemma ThunderOutranksRain(shortForecast: string)
    requires var t := ToLower(shortForecast); Contains(t, "thunder") && !MentionsAny(t, SnowWords)
    ensures ConditionClass(shortForecast) == Thunder
  {
    GroupsSpelt(ToLower(shortForecast));
  }

  lemma ThunderstormsLowered()
    ensures ToLower("Thunderstorms and Rain") == "thunderstorms and rain"
  {
  }

  /** A word one of whose characters the text lacks does not occur in it. */
  lemma AbsentWord(t: string, w: string, k: nat)
    requires k < |w| && w[k] !in t
    ensures !Contains(t, w)
  {
    if Contains(t, w) { ContainsChar(t, w, k); }
  }

  lemma ThunderstormsWords()
    ensures Contains("thunderstorms and rain", "thunder")
    ensures !MentionsAny("thunderstorms and rain", SnowWords)
  {
    var t := "thunderstorms and rain";
    assert OccursAt(t, "thunder", 0);
    assert 'w' !in t;
    AbsentWord(t, "snow", 3);
    assert 'l' !in t;
    AbsentWord(t, "sleet", 1);
    assert 'f' !in t;
    AbsentWord(t, "flurr", 0);
    MentionsThree(t, "snow", "sleet", "flurr");
  }

  /** "Thunderstorms and Rain" is classed thunder. */
  lemma ThunderstormsAndRain()
    ensures ConditionClass("Thunderstorms and Rain").CssClass() == "wx-thunder"
  {
    ThunderstormsLowered();
    ThunderstormsWords();
    ThunderOutranksRain("Thunderstorms and Rain");
  }

  /** An empty text is classed clear. */
  lemma EmptyIsClear()
    ensures ConditionClass("").CssClass() == "wx-clear"
  {
    assert ToLower("") == "";
  }
}
