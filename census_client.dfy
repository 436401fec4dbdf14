/**
 * `Clients::Geocoders::CensusClient`: the US Census one-line-address geocoder, with the
 * same blank check and read-through cache as the Google client in its own key namespace.
 */
module CensusGeocoders {
  import opened Wrappers
  import opened Text
  import opened JsonValue
  import opened Errors
  import opened Runtime
  import opened RubyJson
  import opened Service
  import opened Locations
  import opened CacheStores
  import opened Clients
  import opened GeocodeResults
  import GoogleGeocoders

  const BaseUrl: string := "https://geocoding.geo.census.gov/geocoder/locations/onelineaddress"

  /** The constant path of the client class, from which the base initializer derives a default name. */
  const CensusClassPath: string := "Clients::Geocoders::CensusClient"

  /** The service name passed to the base initializer unless the caller gives one. */
  const DefaultName: string := "CensusGeocoder"

  /** The cache key: the Census namespace and the digest of the downcased, stripped address. */
  function CacheKey(address: string, rt: Foreign): (k: string)
    ensures StartsWith(k, CensusPrefix) && IsGeocodeKey(k) && !IsForecastKey(k)
  {
    NamespacesDisjoint("", rt.sha1Hex(Strip(Downcase(address))), "");
    GeocodeKey(CensusPrefix, address, rt)
  }

  /** A Census key and a Google key never coincide. */
  lemma KeysDisjoint(a: string, b: string, rt: Foreign)
    ensures CacheKey(a, rt) != GoogleGeocoders.CacheKey(b, rt)
  {
    NamespacesDisjoint(rt.sha1Hex(Strip(Downcase(b))), rt.sha1Hex(Strip(Downcase(a))), "");
  }

  /**
   * `parse_response`: nil when there is no first address match; otherwise the coordinates
   * (y is the latitude, x the longitude), the address components, the country "US" and the
   * matched address.
   */
  function ParseResponse(body: Json): (r: Raising<Option<LocationData>>)
    ensures r.Returns? && r.value.Some? ==> r.value.value.country == JStr("US")
    ensures Dig(body, [Key("result"), Key("addressMatches"), At(0)]) == Returns(JNull) ==> r == Returns(None)
  {
    var m :- Dig(body, [Key("result"), Key("addressMatches"), At(0)]);
    if !Truthy(m) then Returns(None)
    else
      var lat :- Dig(m, [Key("coordinates"), Key("y")]);
      var lon :- Dig(m, [Key("coordinates"), Key("x")]);
      var zip :- Dig(m, [Key("addressComponents"), Key("zip")]);
      var city :- Dig(m, [Key("addressComponents"), Key("city")]);
      var state :- Dig(m, [Key("addressComponents"), Key("state")]);
      var full :- Index(m, "matchedAddress");
      Returns(Some(LocationData(lat, lon, zip, city, state, JStr("US"), full)))
  }

  /** For a match given as a hash, the fields come from its coordinates, its address components and its matched address. */
  lemma ParsedMatch(body: Json, mm: Members, cm: Members, am: Members)
    requires Dig(body, [Key("result"), Key("addressMatches"), At(0)]) == Returns(JObj(mm))
    requires Field(mm, "coordinates") == JObj(cm) && Field(mm, "addressComponents") == JObj(am)
    ensures ParseResponse(body) == Returns(Some(LocationData(Field(cm, "y"), Field(cm, "x"), Field(am, "zip"),
                                                             Field(am, "city"), Field(am, "state"), JStr("US"),
                                                             Field(mm, "matchedAddress"))))
  {
    var m := JObj(mm);
    assert Dig(m, [Key("coordinates"), Key("y")]) == Returns(Field(cm, "y")) by {
      assert [Key("coordinates"), Key("y")][1..] == [Key("y")];
    }
    assert Dig(m, [Key("coordinates"), Key("x")]) == Returns(Field(cm, "x")) by {
      assert [Key("coordinates"), Key("x")][1..] == [Key("x")];
    }
    assert Dig(m, [Key("addressComponents"), Key("zip")]) == Returns(Field(am, "zip")) by {
      assert [Key("addressComponents"), Key("zip")][1..] == [Key("zip")];
    }
    assert Dig(m, [Key("addressComponents"), Key("city")]) == Returns(Field(am, "city")) by {
      assert [Key("addressComponents"), Key("city")][1..] == [Key("city")];
    }
    assert Dig(m, [Key("addressComponents"), Key("state")]) == Returns(Field(am, "state")) by {
      assert [Key("addressComponents"), Key("state")][1..] == [Key("state")];
    }
  }

  /** A `result` that is a string cannot be dug into: `parse_response` raises TypeError. */
  lemma StringResultRaises(ms: Members, text: string)
    requires Lookup(ms, "result") == Some(JStr(text))
    ensures ParseResponse(JObj(ms)) == Raise("TypeError", "String does not have #dig method")
  {
    var keys := [Key("result"), Key("addressMatches"), At(0)];
    assert DigStep(JObj(ms), keys[0]) == Returns(JStr(text));
    assert Dig(JObj(ms), keys) == Raise("TypeError", ClassName(JStr(text)) + " does not have #dig method");
    assert ClassName(JStr(text)) + " does not have #dig method" == "String does not have #dig method";
  }

  /** A failure is passed on verbatim; a body without a match gives NotFoundError; a match gives its attributes. */
  function Resolve(address: string, made: Raising<Result<Json, AppError>>): (r: Raising<Result<LocationData, AppError>>)
    ensures made.Raises? ==> r == Raises(made.exception)
    ensures made.Returns? && made.value.Failure? ==> r == Returns(Failure(made.value.error))
    ensures made.Returns? && made.value.Success? && ParseResponse(made.value.data).Raises? ==>
              r == Raises(ParseResponse(made.value.data).exception)
    ensures made.Returns? && made.value.Success? && ParseResponse(made.value.data) == Returns(None) ==>
              r == Returns(Failure(NoMatch(address)))
    ensures made.Returns? && made.value.Success? && ParseResponse(made.value.data).Returns?
            && ParseResponse(made.value.data).value.Some? ==>
              r == Returns(Success(ParseResponse(made.value.data).value.value))
  {
    var result :- made;
    match result
    case Failure(e) => Returns(Failure(e))
    case Success(body) =>
      var parsed :- ParseResponse(body);
      if parsed.None? then Returns(Failure(NoMatch(address))) else Returns(Success(parsed.value))
  }

  /** A body without a first address match gives the NotFoundError naming the address. */
  lemma ResolveNoMatch(address: string, body: Json)
    requires Dig(body, [Key("result"), Key("addressMatches"), At(0)]) == Returns(JNull)
    ensures Resolve(address, Returns(Success(body))) == Returns(Failure(NoMatch(address)))
  {
  }

  class CensusClient {
    const base: BaseClient
    const cache: CacheStore

    /**
     * `initialize(**kwargs)`: the service name is CensusGeocoder unless the caller passes
     * one; an explicit nil falls back to the name derived from the class, "Census".
     */
    constructor(http: Connection, apiKey: Option<string>, serviceName: Option<Option<string>>, cache: CacheStore, rt: Foreign)
      ensures base.apiKey == apiKey && base.http == http && base.hook == NoBodyErrors && base.rt == rt
      ensures serviceName.None? ==> base.serviceName == DefaultName
      ensures serviceName == Some(None) ==> base.serviceName == "Census"
      ensures serviceName.Some? && serviceName.value.Some? ==> base.serviceName == serviceName.value.value
      ensures this.cache == cache
    {
      CensusClientServiceName(CensusClassPath);
      var name := if serviceName.None? then Some(DefaultName) else serviceName.value;
      base := new BaseClient(apiKey, http, name, CensusClassPath, NoBodyErrors, rt);
      this.cache := cache;
    }

    /** The request `geocode` makes: GET with the address, the benchmark "Public_AR_Current" and the format "json". */
    function Request(address: string): Clients.Request
    {
      RequestFor("get", BaseUrl, [("address", JStr(address)), ("benchmark", JStr("Public_AR_Current")), ("format", JStr("json"))])
    }

    /** The outcome of the request for an address when `sentCount` requests went before it. */
    function Fetch(address: string, sentCount: nat): Raising<Result<LocationData, AppError>>
    {
      Resolve(address, Outcome(base.http.reply(Request(address), sentCount), base.serviceName, base.hook, base.rt))
    }

    /** The address is not blank and its key holds no live entry: `geocode` makes a request. */
    predicate Misses(address: Option<string>, entries: Entries, now: int)
    {
      !IsBlank(address) && Live(entries, now, CacheKey(address.value, base.rt)).None?
    }

    /** What `geocode` returns or raises, given the cache and the number of requests made before. */
    function Answer(address: Option<string>, entries: Entries, now: int, sentCount: nat): (r: Raising<Result<Location, AppError>>)
      requires WellTyped(entries)
      ensures IsBlank(address) ==> r == Returns(Failure(BlankAddress()))
      ensures Misses(address, entries, now) ==> r == ToLocation(Fetch(address.value, sentCount), base.rt)
    {
      if IsBlank(address) then Returns(Failure(BlankAddress()))
      else
        match Live(entries, now, CacheKey(address.value, base.rt))
        case Some(LocationRecord(d)) => Returns(Success(NewLocation(d, base.rt)))
        case Some(ForecastRecord(_)) => assert false; Returns(Failure(BlankAddress()))
        case None => ToLocation(Fetch(address.value, sentCount), base.rt)
    }

    /** What a miss writes to the cache: the attributes of a successful parse, nothing otherwise. */
    function Written(address: string, entries: Entries, now: int, sentCount: nat): Entries
    {
      match Fetch(address, sentCount)
      case Returns(Success(d)) => CacheStores.Written(entries, now, CacheKey(address, base.rt), LocationRecord(d), GeocodeTtl)
      case _ => entries
    }

    /** `geocode(address:)`. */
    method Geocode(address: Option<string>) returns (r: Raising<Result<Location, AppError>>)
      requires WellTyped(cache.entries)
      modifies base.http, cache
      ensures r == Answer(address, old(cache.entries), old(cache.now), |old(base.http.sent)|)
      ensures cache.now == old(cache.now) && WellTyped(cache.entries)
      ensures !Misses(address, old(cache.entries), old(cache.now)) ==>
                base.http.sent == old(base.http.sent) && cache.entries == old(cache.entries)
      ensures Misses(address, old(cache.entries), old(cache.now)) ==>
                base.http.sent == old(base.http.sent) + [Request(address.value)]
                && cache.entries == Written(address.value, old(cache.entries), old(cache.now), |old(base.http.sent)|)
    {
      if IsBlank(address) {
        return Returns(Failure(BlankAddress()));
      }
      var key := CacheKey(address.value, base.rt);
      var hit := cache.Read(key);
      if hit.Some? {
        return Returns(Success(NewLocation(hit.value.data, base.rt)));
      }
      var made := base.MakeRequest("get", BaseUrl, [("address", JStr(address.value)), ("benchmark", JStr("Public_AR_Current")), ("format", JStr("json"))]);
      var result := Resolve(address.value, made);
      r := ToLocation(result, base.rt);
      if result.Returns? && result.value.Success? {
        WrittenWellTyped(cache.entries, cache.now, key, LocationRecord(result.value.data), GeocodeTtl);
        cache.Write(key, LocationRecord(result.value.data), GeocodeTtl);
      }
    }

    /** A blank address fails with InvalidInputError and makes no request. */
    lemma BlankAddressFails(address: Option<string>, entries: Entries, now: int, sentCount: nat)
      requires WellTyped(entries) && IsBlank(address)
      ensures Answer(address, entries, now, sentCount) == Returns(Failure(BlankAddress()))
      ensures !Misses(address, entries, now)
    {
    }

    /** A live entry is served as a Location, without a request. */
    lemma CacheHit(address: string, entries: Entries, now: int, sentCount: nat, d: LocationData)
      requires WellTyped(entries) && !IsBlank(Some(address))
      requires Live(entries, now, CacheKey(address, base.rt)) == Some(LocationRecord(d))
      ensures Answer(Some(address), entries, now, sentCount) == Returns(Success(NewLocation(d, base.rt)))
      ensures !Misses(Some(address), entries, now)
    {
    }

    /** After a successful lookup, the same address is served from the cache for 24 hours. */
    lemma ReadThrough(address: string, entries: Entries, now: int, sentCount: nat, later: int, laterCount: nat)
      requires WellTyped(entries) && Misses(Some(address), entries, now)
      requires Fetch(address, sentCount).Returns? && Fetch(address, sentCount).value.Success?
      requires now <= later < now + GeocodeTtl
      ensures WellTyped(Written(address, entries, now, sentCount))
      ensures Answer(Some(address), Written(address, entries, now, sentCount), later, laterCount)
              == Answer(Some(address), entries, now, sentCount)
    {
      var key := CacheKey(address, base.rt);
      var d := Fetch(address, sentCount).value.data;
      WrittenWellTyped(entries, now, key, LocationRecord(d), GeocodeTtl);
      ReadAfterWrite(entries, now, key, LocationRecord(d), GeocodeTtl, later);
    }

    /** A 2xx reply whose `result` is a string makes `geocode` raise the TypeError of `parse_response`. */
    lemma StringResultEscapes(address: string, entries: Entries, now: int, sentCount: nat, status: int,
                              ms: Members, text: string)
      requires WellTyped(entries) && Misses(Some(address), entries, now)
      requires base.hook == NoBodyErrors && 200 <= status <= 299
      requires base.http.reply(Request(address), sentCount) == Response(status, JObj(ms))
      requires Lookup(ms, "result") == Some(JStr(text))
      ensures Answer(Some(address), entries, now, sentCount) == Raise("TypeError", "String does not have #dig method")
    {
      SuccessOutcome(status, JObj(ms), base.serviceName, base.hook, base.rt);
      StringResultRaises(ms, text);
    }

    /** A failure of the request, or a body without a match, leaves the cache unchanged. */
    lemma NothingCachedOnFailure(address: string, entries: Entries, now: int, sentCount: nat)
      requires !(Fetch(address, sentCount).Returns? && Fetch(address, sentCount).value.Success?)
      ensures Written(address, entries, now, sentCount) == entries
    {
    }
  }
}
