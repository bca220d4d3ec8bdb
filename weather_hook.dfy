/** The outdoor-weather hook: two fetches, each patching one field of the
    weather record, that share a single loading flag and a single error. */
module WeatherHook {
  import opened Js
  import opened Transport

  datatype WeatherField = OutdoorAirTemp | Status

  datatype Weather = Weather(outdoorAirTemp: string, status: string) {

    function Get(f: WeatherField): string {
      match f
      case OutdoorAirTemp => outdoorAirTemp
      case Status => status
    }

    /** The functional update `prev => ({ ...prev, [f]: v })`. */
    function With(f: WeatherField, v: string): (r: Weather)
      ensures r.Get(f) == v
      ensures forall g :: g != f ==> r.Get(g) == Get(g)
    {
      match f
      case OutdoorAirTemp => this.(outdoorAirTemp := v)
      case Status => this.(status := v)
    }
  }

  datatype WeatherState = WeatherState(weather: Weather, loading: bool, error: string)

  const FailedWeather := "Failed to load Weather data"

  const Initial := WeatherState(Weather("", ""), false, "")

  function EndpointFor(f: WeatherField): Endpoint {
    match f
    case OutdoorAirTemp => GetWeatherTemp
    case Status => GetWeatherStatus
  }

  function Started(s: WeatherState): WeatherState {
    s.(loading := true)
  }

  /** The code after the await of either fetch: an `ok` patches field `f` only;
      any other outcome leaves the record alone and overwrites the shared error. */
  function Completed(s: WeatherState, f: WeatherField, result: Outcome<string>): (r: WeatherState)
    ensures !r.loading
    ensures r.weather.Get(f) == if result.Ok? then result.data else s.weather.Get(f)
    ensures forall g :: g != f ==> r.weather.Get(g) == s.weather.Get(g)
    ensures result.Ok? ==> r.error == s.error
    ensures (result.Err? || result.BadData?) ==> r.error == FailedWeather
    ensures result.Thrown? ==> r.error == ErrorMessage(result.exception)
  {
    var settled :=
      match result
      case Ok(d) => s.(weather := s.weather.With(f, d))
      case Thrown(e) => s.(error := ErrorMessage(e))
      case _ => s.(error := FailedWeather);
    settled.(loading := false)
  }

  /** The error a non-ok outcome records. */
  function FailureText(result: Outcome<string>): string
    requires !result.Ok?
  {
    if result.Thrown? then ErrorMessage(result.exception) else FailedWeather
  }

  function Fetched(s: WeatherState, f: WeatherField, result: Outcome<string>): WeatherState {
    Completed(Started(s), f, result)
  }

  /** No outcome of either fetch clears a recorded error. */
  lemma ErrorNeverCleared(s: WeatherState, f: WeatherField, result: Outcome<string>)
    requires s.error != ""
    ensures Fetched(s, f, result).error != ""
  {
  }

  /** Running the two fetches in either order gives the same state, except that
      when both fail the error left behind is the one recorded last. */
  lemma FetchOrderMattersOnlyForError(s: WeatherState, tempResult: Outcome<string>, statusResult: Outcome<string>)
    ensures Fetched(Fetched(s, OutdoorAirTemp, tempResult), Status, statusResult).weather
         == Fetched(Fetched(s, Status, statusResult), OutdoorAirTemp, tempResult).weather
    ensures tempResult.Ok? || statusResult.Ok? ==>
              (Fetched(Fetched(s, OutdoorAirTemp, tempResult), Status, statusResult)
               == Fetched(Fetched(s, Status, statusResult), OutdoorAirTemp, tempResult))
    ensures !tempResult.Ok? && !statusResult.Ok? ==>
              (Fetched(Fetched(s, OutdoorAirTemp, tempResult), Status, statusResult).error == FailureText(statusResult)
               && Fetched(Fetched(s, Status, statusResult), OutdoorAirTemp, tempResult).error == FailureText(tempResult))
  {
  }

  class WeatherStore {
    var weather: Weather
    var weatherLoading: bool
    var error: string
    ghost var calls: seq<Endpoint>

    function State(): WeatherState
      reads this
    {
      WeatherState(weather, weatherLoading, error)
    }

    constructor()
      ensures State() == Initial && calls == []
    {
      weather := Weather("", "");
      weatherLoading := false;
      error := "";
      calls := [];
    }

    method BeginFetch(f: WeatherField)
      modifies this
      ensures State() == Started(old(State())) && State().loading
      ensures calls == old(calls) + [EndpointFor(f)]
    {
      weatherLoading := true;
      calls := calls + [EndpointFor(f)];
    }

    method CompleteFetch(f: WeatherField, result: Outcome<string>)
      modifies this
      ensures State() == Completed(old(State()), f, result)
      ensures calls == old(calls)
    {
      match result {
        case Ok(d) =>
          weather := weather.With(f, d);
        case Thrown(e) =>
          error := ErrorMessage(e);
        case _ =>
          error := FailedWeather;
      }
      weatherLoading := false;
    }

    method FetchWeatherTemp(result: Outcome<string>)
      modifies this
      ensures State() == Fetched(old(State()), OutdoorAirTemp, result)
      ensures calls == old(calls) + [GetWeatherTemp]
    {
      BeginFetch(OutdoorAirTemp);
      CompleteFetch(OutdoorAirTemp, result);
    }

    method FetchWeatherStatus(result: Outcome<string>)
      modifies this
      ensures State() == Fetched(old(State()), Status, result)
      ensures calls == old(calls) + [GetWeatherStatus]
    {
      BeginFetch(Status);
      CompleteFetch(Status, result);
    }
  }
}
