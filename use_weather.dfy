/** The weather hook: a simulated reading drawn from two random numbers,
    the condition-to-description table, and the loading/error flags around a
    fetch that runs only when both coordinates are truthy. `Math.random` is
    the pair of parameters `conditionDraw`, `temperatureDraw` in [0, 1). */
module UseWeather {
  import opened Options

  datatype Condition = Clear | Cloudy | Rain | Snow | Storm | Windy

  datatype WeatherData = WeatherData(temperature: int, condition: Condition, description: string)

  /** The `conditions` array, in its order. */
  const Conditions: seq<Condition> := [Clear, Cloudy, Rain, Snow, Storm, Windy]

  const InitialWeather := WeatherData(25, Clear, "Sunny day")

  /** `getWeatherDescription`: the tabled text, from which the condition
      can be read back, so no two conditions share a description. */
  function Description(condition: Condition): (d: string)
    ensures ConditionOf(d) == Some(condition)
  {
    match condition
    case Clear => "Sunny day"
    case Cloudy => "Partly cloudy"
    case Rain => "Light rain"
    case Snow => "Light snow"
    case Storm => "Thunderstorm"
    case Windy => "Strong winds"
  }

  /** The reverse reading of the description table. */
  function ConditionOf(description: string): Option<Condition> {
    if description == "Sunny day" then Some(Clear)
    else if description == "Partly cloudy" then Some(Cloudy)
    else if description == "Light rain" then Some(Rain)
    else if description == "Light snow" then Some(Snow)
    else if description == "Thunderstorm" then Some(Storm)
    else if description == "Strong winds" then Some(Windy)
    else None
  }

  /** A reading whose description is the one tabled for its condition. */
  predicate Consistent(w: WeatherData) {
    w.description == Description(w.condition)
  }

  /** `Math.floor(Math.random() * conditions.length)`: always a valid index. */
  function ConditionIndex(draw: real): (i: int)
    requires 0.0 <= draw < 1.0
    ensures 0 <= i < |Conditions|
    ensures i as real <= draw * |Conditions| as real < i as real + 1.0
  {
    (draw * |Conditions| as real).Floor
  }

  /** `Math.floor(Math.random() * 30) + 10`. */
  function SimulatedTemperature(draw: real): (t: int)
    requires 0.0 <= draw < 1.0
    ensures 10 <= t <= 39
  {
    (draw * 30.0).Floor + 10
  }

  /** The reading `simulateWeather` stores: condition from the first draw,
      temperature from the second. */
  function Simulated(conditionDraw: real, temperatureDraw: real): (w: WeatherData)
    requires 0.0 <= conditionDraw < 1.0 && 0.0 <= temperatureDraw < 1.0
    ensures 10 <= w.temperature <= 39
    ensures Consistent(w)
  {
    var condition := Conditions[ConditionIndex(conditionDraw)];
    WeatherData(SimulatedTemperature(temperatureDraw), condition, Description(condition))
  }

  /** Conversely, every temperature in [10, 39] and every condition can come
      out of the simulator. */
  lemma SimulatedCoversRange(temperature: int, condition: Condition)
    requires 10 <= temperature <= 39
    ensures var cd := Index(condition) as real / 6.0;
      var td := (temperature - 10) as real / 30.0;
      0.0 <= cd < 1.0 && 0.0 <= td < 1.0
      && Simulated(cd, td) == WeatherData(temperature, condition, Description(condition))
  {
    var i := Index(condition);
    var cd := i as real / 6.0;
    var td := (temperature - 10) as real / 30.0;
    assert cd * 6.0 == i as real;
    assert td * 30.0 == (temperature - 10) as real;
  }

  /** Position of a condition in the `conditions` array. */
  function Index(condition: Condition): (i: nat)
    ensures i < |Conditions| && Conditions[i] == condition
  {
    match condition
    case Clear => 0
    case Cloudy => 1
    case Rain => 2
    case Snow => 3
    case Storm => 4
    case Windy => 5
  }

  /** The hook's state: `weather`, `loading`, `error`. */
  class WeatherHook {
    var weather: WeatherData
    var loading: bool
    var error: Option<string>

    ghost predicate Valid()
      reads this
    {
      Consistent(weather) && 10 <= weather.temperature <= 39
    }

    constructor ()
      ensures Valid()
      ensures weather == InitialWeather && !loading && error == None
    {
      weather := InitialWeather;
      loading := false;
      error := None;
    }

    /** `simulateWeather`: store a fresh simulated reading. */
    method SimulateWeather(conditionDraw: real, temperatureDraw: real)
      requires 0.0 <= conditionDraw < 1.0 && 0.0 <= temperatureDraw < 1.0
      modifies this
      ensures Valid()
      ensures weather == Simulated(conditionDraw, temperatureDraw)
      ensures loading == old(loading) && error == old(error)
    {
      weather := Simulated(conditionDraw, temperatureDraw);
    }

    /** The first two setters of `fetchWeather`. */
    method BeginFetch()
      requires Valid()
      modifies this
      ensures Valid()
      ensures loading && error == None && weather == old(weather)
    {
      loading := true;
      error := None;
    }

    /** The `finally` of `fetchWeather`. */
    method EndFetch()
      requires Valid()
      modifies this
      ensures Valid()
      ensures !loading && error == old(error) && weather == old(weather)
    {
      loading := false;
    }

    /** `fetchWeather` on the path that does not throw: the coordinates are
        not used; the reading is simulated, loading ends false and no error
        is recorded. */
    method FetchWeather(latitude: real, longitude: real, conditionDraw: real, temperatureDraw: real)
      requires Valid()
      requires 0.0 <= conditionDraw < 1.0 && 0.0 <= temperatureDraw < 1.0
      modifies this
      ensures Valid()
      ensures weather == Simulated(conditionDraw, temperatureDraw)
      ensures !loading && error == None
    {
      BeginFetch();
      SimulateWeather(conditionDraw, temperatureDraw);
      EndFetch();
    }

    /** The effect on `[lat, lon]`: fetch only when both are truthy; an
        absent or zero coordinate leaves every field as it was. */
    method CoordinatesChanged(lat: Option<real>, lon: Option<real>, conditionDraw: real, temperatureDraw: real)
      returns (fetched: bool)
      requires Valid()
      requires 0.0 <= conditionDraw < 1.0 && 0.0 <= temperatureDraw < 1.0
      modifies this
      ensures Valid()
      ensures fetched <==> Truthy(lat) && Truthy(lon)
      ensures fetched ==>
        weather == Simulated(conditionDraw, temperatureDraw) && !loading && error == None
      ensures !fetched ==>
        weather == old(weather) && loading == old(loading) && error == old(error)
    {
      fetched := Truthy(lat) && Truthy(lon);
      if fetched {
        FetchWeather(lat.value, lon.value, conditionDraw, temperatureDraw);
      }
    }
  }
}
