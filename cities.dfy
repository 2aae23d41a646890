/** The two fixed locations of the dashboard. */
module Cities {

  /** The key a city is cached and selected under. */
  datatype Key = Her | Me
  {
    function Name(): (name: string)
      ensures name == "HER" || name == "ME"
    {
      if Her? then "HER" else "ME"
    }
  }

  datatype City = City(key: Key, name: string, tz: string, lat: real, lon: real)

  /** The city selected when the page loads. */
  const HER := City(Her, "New York", "America/New_York", 40.725, -73.985)
  const ME := City(Me, "Los Angeles", "America/Los_Angeles", 34.02665, -118.47381)

  predicate Known(c: City)
  {
    c == HER || c == ME
  }

  /** The city compared with `c`: ME when `c` is HER, HER otherwise. */
  function Other(c: City): (o: City)
    ensures Known(o)
    ensures Known(c) ==> o.key != c.key
  {
    if c.key == Her then ME else HER
  }
}
