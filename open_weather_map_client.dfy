/**
 * `Clients::Weather::OpenWeatherMapClient`: current weather for a Location's coordinates,
 * built into a Forecast whose temperatures are rendered strings.
 */
module OpenWeatherMap {
  import opened Wrappers
  import opened Text
  import opened JsonValue
  import opened Errors
  import opened Runtime
  import opened RubyJson
  import opened Service
  import opened Locations
  import opened Temperatures
  import opened Forecasts
  import opened Clients

  const ApiUrl: string := "https://api.openweathermap.org/data/2.5/weather"
  const DefaultUnits: string := "metric"

  /** The service name the initializer sets after the base initializer has run. */
  const ServiceName: string := "OpenWeatherMapClient"

  const MissingLocationMessage: string := "Location is missing or invalid (requires latitude and longitude)."

  /** `unit_symbol`: C for metric units, F for anything else. */
  function UnitSymbol(units: string): (s: string)
    ensures s == "C" <==> units == DefaultUnits
    ensures s == "F" <==> units != DefaultUnits
    ensures s in Units
  {
    if units == DefaultUnits then "C" else "F"
  }

  /** The failure `forecast` returns for a location without usable coordinates. */
  function MissingLocation(): (e: AppError)
    ensures e.InvalidInputError? && e.field == Some("location") && e.statusCode == Some(400)
    ensures e.message == FieldMessage(MissingLocationMessage, Some("location"), None)
  {
    NewInvalidInputError(MissingLocationMessage, Some("location"))
  }

  /**
   * The guard `location&.latitude && location&.longitude`: both coordinates when the location
   * is present and both read as Floats, nothing otherwise. Reading a coordinate that holds a
   * non-empty array or hash raises, and the guard does not rescue it.
   */
  function Coordinates(location: Option<Location>, rt: Foreign): (r: Raising<Option<(string, string)>>)
    ensures location.None? ==> r == Returns(None)
    ensures r.Returns? && r.value.Some? <==>
              location.Some? && location.value.Latitude(rt).Returns? && location.value.Latitude(rt).value.Some?
              && location.value.Longitude(rt).Returns? && location.value.Longitude(rt).value.Some?
    ensures r.Returns? && r.value.Some? ==>
              r.value.value == (location.value.Latitude(rt).value.value, location.value.Longitude(rt).value.value)
    ensures r.Raises? ==> location.Some? && (location.value.Latitude(rt).Raises? || location.value.Longitude(rt).Raises?)
  {
    match location
    case None => Returns(None)
    case Some(l) =>
      var lat :- l.Latitude(rt);
      if lat.None? then Returns(None)
      else
        var lon :- l.Longitude(rt);
        if lon.None? then Returns(None) else Returns(Some((lat.value, lon.value)))
  }

  /** `response.fetch(:weather, []).first || {}`: the first weather entry, or an empty hash. */
  function FirstWeather(response: Json): (r: Raising<Json>)
    ensures r.Returns? ==> Truthy(r.value)
  {
    var list :- Fetch(response, "weather", Some(JArr([])));
    var w :- First(list);
    Returns(if Truthy(w) then w else JObj([]))
  }

  /** `Temperature.new(value: main.fetch(key), unit: symbol).to_s`. */
  function Rendered(main: Json, key: string, symbol: string, rt: Foreign): (r: Raising<string>)
    ensures r.Returns? ==> !IsBlank(Some(r.value)) && Contains(r.value, DegreeSeparator)
  {
    var v :- Fetch(main, key, None);
    var s :- Temperature(v, JStr(symbol)).ToS(rt);
    ToSNeverBlank(Temperature(v, JStr(symbol)), rt);
    Returns(s)
  }

  /**
   * `build_forecast`: the temperatures of `main` rendered in the unit symbol, the description
   * of the first weather entry, and the time of `dt`; a ValidationError if the Forecast is
   * invalid. A missing `temp`, `temp_max`, `temp_min`, `description` or `dt`, or a value of
   * the wrong kind, raises.
   */
  function BuildForecast(response: Json, units: string, rt: Foreign): (r: Raising<Result<Forecast, AppError>>)
    ensures r.Returns? ==> response.JObj? && "dt" in KeySet(response.members)
    ensures r.Returns? ==> r.value.Success? && r.value.data.IsValid()
  {
    var main :- Fetch(response, "main", Some(JObj([])));
    var weather :- FirstWeather(response);
    var symbol := UnitSymbol(units);
    var current :- Rendered(main, "temp", symbol, rt);
    var high :- Rendered(main, "temp_max", symbol, rt);
    var low :- Rendered(main, "temp_min", symbol, rt);
    var conditions :- Fetch(weather, "description", None);
    var dt :- Fetch(response, "dt", None);
    var at :- TimeAt(dt);
    var f := NewForecast(JStr(current), JStr(high), JStr(low), conditions, Some(at), rt);
    if f.IsValid() then Returns(Success(f)) else Returns(Failure(NewValidationError(Join(f.FullMessages(), ", "))))
  }

  /** The Forecast built from a response that has every field OpenWeatherMap documents. */
  lemma WellFormedResponse(response: Json, main: Members, t: string, hi: string, lo: string,
                           entry: Members, description: string, dt: Number, rest: seq<Json>, units: string, rt: Foreign)
    requires response.JObj? && Lookup(response.members, "main") == Some(JObj(main))
    requires Lookup(main, "temp") == Some(JNum(Float(t)))
    requires Lookup(main, "temp_max") == Some(JNum(Float(hi)))
    requires Lookup(main, "temp_min") == Some(JNum(Float(lo)))
    requires Lookup(response.members, "weather") == Some(JArr([JObj(entry)] + rest))
    requires Lookup(entry, "description") == Some(JStr(description))
    requires Lookup(response.members, "dt") == Some(JNum(dt))
    ensures BuildForecast(response, units, rt) == Returns(Success(Forecast(
              Some(t + DegreeSeparator + UnitSymbol(units)), Some(hi + DegreeSeparator + UnitSymbol(units)),
              Some(lo + DegreeSeparator + UnitSymbol(units)), Some(description), Some(dt))))
  {
    var symbol := UnitSymbol(units);
    assert Fetch(response, "main", Some(JObj([]))) == Returns(JObj(main));
    FirstWeatherOf(response, entry, rest);
    assert Fetch(JObj(entry), "description", None) == Returns(JStr(description));
    assert Fetch(response, "dt", None) == Returns(JNum(dt));
    RenderedFloat(main, "temp", t, symbol, rt);
    RenderedFloat(main, "temp_max", hi, symbol, rt);
    RenderedFloat(main, "temp_min", lo, symbol, rt);
    var f := NewForecast(JStr(t + DegreeSeparator + symbol), JStr(hi + DegreeSeparator + symbol),
                         JStr(lo + DegreeSeparator + symbol), JStr(description), Some(dt), rt);
    assert f.IsValid();
  }

  /** The first entry of a non-empty "weather" list of objects is the one read. */
  lemma FirstWeatherOf(response: Json, entry: Members, rest: seq<Json>)
    requires response.JObj? && Lookup(response.members, "weather") == Some(JArr([JObj(entry)] + rest))
    ensures FirstWeather(response) == Returns(JObj(entry))
  {
    assert Fetch(response, "weather", Some(JArr([]))) == Returns(JArr([JObj(entry)] + rest));
  }

  /** A float reading under `key` renders as the number, the degree sign and the unit symbol. */
  lemma RenderedFloat(main: Members, key: string, v: string, symbol: string, rt: Foreign)
    requires Lookup(main, key) == Some(JNum(Float(v)))
    ensures Rendered(JObj(main), key, symbol, rt) == Returns(v + DegreeSeparator + symbol)
  {
  }

  /**
   * `main.fetch(:temp)`, `main.fetch(:temp_max)` and `main.fetch(:temp_min)` have no default:
   * a reading missing from a hash `main` raises, and a missing `temp` raises KeyError when the
   * weather entry is readable.
   */
  lemma MissingReadingRaises(response: Json, main: Members, key: string, units: string, rt: Foreign)
    requires response.JObj? && Lookup(response.members, "main") == Some(JObj(main))
    requires key == "temp" || key == "temp_max" || key == "temp_min"
    requires key !in KeySet(main)
    ensures BuildForecast(response, units, rt).Raises?
    ensures key == "temp" && FirstWeather(response).Returns? ==>
              BuildForecast(response, units, rt) == Raise("KeyError", "key not found: :temp")
  {
    assert Fetch(response, "main", Some(JObj([]))) == Returns(JObj(main));
    assert Fetch(JObj(main), key, None) == Raise("KeyError", "key not found: :" + key);
    assert Rendered(JObj(main), key, UnitSymbol(units), rt).Raises?;
  }

  /** `weather.fetch(:description)` has no default: a weather entry without it raises. */
  lemma MissingDescriptionRaises(response: Json, entry: Members, rest: seq<Json>, units: string, rt: Foreign)
    requires response.JObj? && Lookup(response.members, "weather") == Some(JArr([JObj(entry)] + rest))
    requires "description" !in KeySet(entry)
    ensures BuildForecast(response, units, rt).Raises?
  {
    FirstWeatherOf(response, entry, rest);
    assert Fetch(JObj(entry), "description", None).Raises?;
  }

  /** A response without `dt` raises KeyError rather than returning a Forecast without a time. */
  lemma MissingTimeRaises(response: Json, units: string, rt: Foreign)
    requires response.JObj? && "dt" !in KeySet(response.members)
    ensures BuildForecast(response, units, rt).Raises?
  {
  }

  /** A failure of the request is returned verbatim; a successful body goes to `build_forecast`. */
  function Resolve(made: Raising<Result<Json, AppError>>, units: string, rt: Foreign): (r: Raising<Result<Forecast, AppError>>)
    ensures made.Raises? ==> r == Raises(made.exception)
    ensures made.Returns? && made.value.Failure? ==> r == Returns(Failure(made.value.error))
    ensures made.Returns? && made.value.Success? ==> r == BuildForecast(made.value.data, units, rt)
  {
    var result :- made;
    match result
    case Failure(e) => Returns(Failure(e))
    case Success(body) => BuildForecast(body, units, rt)
  }

  class OpenWeatherMapClient {
    const base: BaseClient
    const units: string

    /**
     * `initialize(**kwargs)`: the API key always comes from the application credentials, the
     * service name is always OpenWeatherMapClient and the units metric.
     */
    constructor(http: Connection, credentialsKey: Option<string>, rt: Foreign)
      ensures base.apiKey == credentialsKey && base.http == http && base.serviceName == ServiceName
      ensures base.hook == NoBodyErrors && base.rt == rt && units == DefaultUnits
    {
      base := new BaseClient(credentialsKey, http, Some(ServiceName), "Clients::Weather::OpenWeatherMapClient",
                             NoBodyErrors, rt);
      units := DefaultUnits;
    }

    /** The query parameters: the coordinates, the API key and the units. */
    function Params(lat: string, lon: string): Members
    {
      [("lat", JNum(Float(lat))), ("lon", JNum(Float(lon))),
       ("appid", if base.apiKey.Some? then JStr(base.apiKey.value) else JNull), ("units", JStr(units))]
    }

    /** What `forecast(location:)` returns or raises when `sentCount` requests went before it. */
    function Answer(location: Option<Location>, sentCount: nat): (r: Raising<Result<Forecast, AppError>>)
      ensures Coordinates(location, base.rt).Raises? ==> r == Raises(Coordinates(location, base.rt).exception)
      ensures Coordinates(location, base.rt) == Returns(None) ==> r == Returns(Failure(MissingLocation()))
      ensures r.Returns? && r.value.Success? ==> r.value.data.IsValid()
    {
      var coords :- Coordinates(location, base.rt);
      match coords
      case None => Returns(Failure(MissingLocation()))
      case Some((lat, lon)) =>
        var req := RequestFor("get", ApiUrl, Params(lat, lon));
        Resolve(Outcome(base.http.reply(req, sentCount), base.serviceName, base.hook, base.rt), units, base.rt)
    }

    /** The requests `forecast(location:)` makes: one for a location with both coordinates, none otherwise. */
    function Requests(location: Option<Location>): (rs: seq<Clients.Request>)
      ensures |rs| <= 1
      ensures rs != [] <==> Coordinates(location, base.rt).Returns? && Coordinates(location, base.rt).value.Some?
    {
      match Coordinates(location, base.rt)
      case Returns(Some((lat, lon))) => [RequestFor("get", ApiUrl, Params(lat, lon))]
      case _ => []
    }

    /** `forecast(location:)`: one request when the location has both coordinates, none otherwise. */
    method Forecast(location: Option<Location>) returns (r: Raising<Result<Forecast, AppError>>)
      modifies base.http
      ensures r == Answer(location, |old(base.http.sent)|)
      ensures base.http.sent == old(base.http.sent) + Requests(location)
    {
      var coords := Coordinates(location, base.rt);
      if coords.Raises? {
        return Raises(coords.exception);
      }
      if coords.value.None? {
        return Returns(Failure(MissingLocation()));
      }
      var (lat, lon) := coords.value.value;
      var made := base.MakeRequest("get", ApiUrl, Params(lat, lon));
      r := Resolve(made, units, base.rt);
    }

    /** A successful 2xx reply to a well-formed request gives the Forecast `build_forecast` makes of the body. */
    lemma SuccessfulForecast(location: Location, sentCount: nat, status: int, body: Json)
      requires Coordinates(Some(location), base.rt).Returns? && Coordinates(Some(location), base.rt).value.Some?
      requires base.hook == NoBodyErrors && 200 <= status <= 299
      requires var (lat, lon) := Coordinates(Some(location), base.rt).value.value;
               base.http.reply(RequestFor("get", ApiUrl, Params(lat, lon)), sentCount) == Response(status, body)
      ensures Answer(Some(location), sentCount) == BuildForecast(body, units, base.rt)
    {
      SuccessOutcome(status, body, base.serviceName, base.hook, base.rt);
    }
  }
}
