/**
 * `Clients::Geocoders::GoogleClient`: a blank check, a read-through cache keyed by the
 * normalised address, one request to the Google Geocoding API, and the extraction of a
 * Location from the first result.
 */
module GoogleGeocoders {
  import opened Wrappers
  import opened Text
  import opened JsonValue
  import opened Errors
  import opened Runtime
  import opened RubyJson
  import opened Service
  import opened Locations
  import opened CacheStores
  import opened Clients
  import opened GeocodeResults

  const BaseUrl: string := "https://maps.googleapis.com/maps/api/geocode/json"

  /** The service name the client sets after the base initializer. */
  const ServiceName: string := "GoogleGeocoder"

  /** `cache_key`. */
  function CacheKey(address: string, rt: Foreign): (k: string)
    ensures StartsWith(k, GooglePrefix) && IsGeocodeKey(k) && !IsForecastKey(k)
  {
    NamespacesDisjoint(rt.sha1Hex(Strip(Downcase(address))), "", "");
    GeocodeKey(GooglePrefix, address, rt)
  }

  /** A component's `types` can be read and includes `typeName`. */
  predicate HasType(c: Json, typeName: string)
  {
    Index(c, "types").Returns? && Includes(Index(c, "types").value, typeName) == Returns(true)
  }

  /** A component's `types` can be read and does not include `typeName`. */
  predicate LacksType(c: Json, typeName: string)
  {
    Index(c, "types").Returns? && Includes(Index(c, "types").value, typeName) == Returns(false)
  }

  /** `find { |c| c["types"].include?(typeName) }`: the position of the first component whose types include the name. */
  function FindComponent(cs: seq<Json>, typeName: string): (r: Raising<Option<nat>>)
    ensures r.Returns? && r.value.Some? ==>
              r.value.value < |cs| && HasType(cs[r.value.value], typeName)
              && forall j :: 0 <= j < r.value.value ==> LacksType(cs[j], typeName)
    ensures r == Returns(None) ==> forall j :: 0 <= j < |cs| ==> LacksType(cs[j], typeName)
    decreases |cs|
  {
    if cs == [] then Returns(None)
    else
      var types :- Index(cs[0], "types");
      var has :- Includes(types, typeName);
      if has then Returns(Some(0))
      else
        var rest :- FindComponent(cs[1..], typeName);
        assert forall j :: 1 <= j < |cs| ==> cs[j] == cs[1..][j - 1];
        Returns(if rest.Some? then Some(rest.value + 1) else None)
  }

  /** `result["address_components"].find { ... }&.dig(nameKey)`: the name of the first component of the type, nil when none has it. */
  function ComponentName(result: Json, typeName: string, nameKey: string): (r: Raising<Json>)
  {
    var comps :- Index(result, "address_components");
    var cs :- Elements(comps, "find");
    var found :- FindComponent(cs, typeName);
    if found.None? then Returns(JNull) else Dig(cs[found.value], [Key(nameKey)])
  }

  /** The first component of the type supplies the name; when no component has the type, the name is nil. */
  lemma ComponentNameFirst(rm: Members, cs: seq<Json>, typeName: string, nameKey: string)
    requires Field(rm, "address_components") == JArr(cs)
    ensures FindComponent(cs, typeName) == Returns(None) ==> ComponentName(JObj(rm), typeName, nameKey) == Returns(JNull)
    ensures forall i: nat :: FindComponent(cs, typeName) == Returns(Some(i)) && cs[i].JObj? ==>
              ComponentName(JObj(rm), typeName, nameKey) == Returns(Field(cs[i].members, nameKey))
  {
  }

  /**
   * The `each_with_object` pass over the components: for each component its first type,
   * and the long name when that type is present. Its hash is never used, but the calls it
   * makes can raise.
   */
  function ScanComponents(cs: seq<Json>): (r: Raising<seq<(Json, Json)>>)
    ensures r.Returns? ==> |r.value| <= |cs|
    decreases |cs|
  {
    if cs == [] then Returns([])
    else
      var types :- Index(cs[0], "types");
      var first :- First(types);
      var here :- TypeEntry(cs[0], first);
      var rest :- ScanComponents(cs[1..]);
      Returns(here + rest)
  }

  /** `hash[type] = component["long_name"] if type`: the entry a component adds. */
  function TypeEntry(c: Json, typeName: Json): (r: Raising<seq<(Json, Json)>>)
    ensures !Truthy(typeName) ==> r == Returns([])
  {
    if !Truthy(typeName) then Returns([])
    else
      match Index(c, "long_name")
      case Returns(name) => Returns([(typeName, name)])
      case Raises(e) => Raises(e)
  }

  /** The attribute hash built from one result. */
  function ParseResult(result: Json): Raising<LocationData>
  {
    var comps :- Index(result, "address_components");
    var cs :- Elements(comps, "each_with_object");
    var scanned :- ScanComponents(cs);
    var coordinates :- Coordinates(result);
    var names :- Names(result);
    var full :- Index(result, "formatted_address");
    Returns(LocationData(coordinates.0, coordinates.1, names.0, names.1, names.2, names.3, full))
  }

  /** `result.dig("geometry", "location", "lat")`, then the same for "lng". */
  function Coordinates(result: Json): Raising<(Json, Json)>
  {
    var lat :- Dig(result, [Key("geometry"), Key("location"), Key("lat")]);
    var lng :- Dig(result, [Key("geometry"), Key("location"), Key("lng")]);
    Returns((lat, lng))
  }

  /** The zip code, city, state and country names, looked up in that order. */
  function Names(result: Json): Raising<(Json, Json, Json, Json)>
  {
    var zip :- ComponentName(result, "postal_code", "long_name");
    var city :- ComponentName(result, "locality", "long_name");
    var state :- ComponentName(result, "administrative_area_level_1", "short_name");
    var country :- ComponentName(result, "country", "short_name");
    Returns((zip, city, state, country))
  }

  /** Zip code and city come from the long names, state and country from the short names, of the first components of their types. */
  lemma ParsedFields(result: Json)
    requires ParseResult(result).Returns?
    ensures var d := ParseResult(result).value;
            d.zipCode == ComponentName(result, "postal_code", "long_name").value
            && d.city == ComponentName(result, "locality", "long_name").value
            && d.stateCode == ComponentName(result, "administrative_area_level_1", "short_name").value
            && d.country == ComponentName(result, "country", "short_name").value
            && d.latitude == Dig(result, [Key("geometry"), Key("location"), Key("lat")]).value
            && d.longitude == Dig(result, [Key("geometry"), Key("location"), Key("lng")]).value
            && d.fullAddress == Index(result, "formatted_address").value
  {
    CoordinatesOf(result);
    NamesOf(result);
  }

  lemma CoordinatesOf(result: Json)
    requires Coordinates(result).Returns?
    ensures Dig(result, [Key("geometry"), Key("location"), Key("lat")]).Returns?
    ensures Dig(result, [Key("geometry"), Key("location"), Key("lng")]).Returns?
    ensures Coordinates(result).value == (Dig(result, [Key("geometry"), Key("location"), Key("lat")]).value,
                                          Dig(result, [Key("geometry"), Key("location"), Key("lng")]).value)
  {
  }

  lemma NamesOf(result: Json)
    requires Names(result).Returns?
    ensures ComponentName(result, "postal_code", "long_name").Returns?
    ensures ComponentName(result, "locality", "long_name").Returns?
    ensures ComponentName(result, "administrative_area_level_1", "short_name").Returns?
    ensures ComponentName(result, "country", "short_name").Returns?
    ensures Names(result).value == (ComponentName(result, "postal_code", "long_name").value,
                                    ComponentName(result, "locality", "long_name").value,
                                    ComponentName(result, "administrative_area_level_1", "short_name").value,
                                    ComponentName(result, "country", "short_name").value)
  {
  }

  /** `parse_response`: nil unless the status is "OK" and there is a result; otherwise the first result's attributes. */
  function ParseResponse(body: Json): (r: Raising<Option<LocationData>>)
    ensures r.Returns? && r.value.Some? ==> body.JObj? && Field(body.members, "status") == JStr("OK")
    ensures body.JObj? && Field(body.members, "status") != JStr("OK") ==> r == Returns(None)
  {
    match body
    case JObj(ms) =>
      if Field(ms, "status") != JStr("OK") then Returns(None)
      else
        var results := Field(ms, "results");
        var empty :- IsEmpty(results);
        if empty then Returns(None)
        else
          var result :- First(results);
          var d :- ParseResult(result);
          Returns(Some(d))
    // On a string `body["status"]` is "status" or nil, never "OK".
    case JStr(_) => Returns(None)
    case _ => Raises(Index(body, "status").exception)
  }

  /** A status other than "OK", or an empty result list, gives no location. */
  lemma ParseNoMatch(ms: Members)
    ensures Field(ms, "status") != JStr("OK") ==> ParseResponse(JObj(ms)) == Returns(None)
    ensures Field(ms, "status") == JStr("OK") && Field(ms, "results") == JArr([]) ==> ParseResponse(JObj(ms)) == Returns(None)
  {
  }

  /** Only the first result is used. */
  lemma ParseFirstResult(ms: Members, rs: seq<Json>)
    requires Field(ms, "status") == JStr("OK") && Field(ms, "results") == JArr(rs) && rs != []
    ensures ParseResult(rs[0]).Returns? ==> ParseResponse(JObj(ms)) == Returns(Some(ParseResult(rs[0]).value))
    ensures ParseResult(rs[0]).Raises? ==> ParseResponse(JObj(ms)) == Raises(ParseResult(rs[0]).exception)
  {
  }

  /**
   * What follows the request: a failure is passed on with the same error, a body without
   * a match gives NotFoundError, and a match gives its attributes.
   */
  function Resolve(address: string, made: Raising<Result<Json, AppError>>): (r: Raising<Result<LocationData, AppError>>)
    ensures made.Raises? ==> r == Raises(made.exception)
    ensures made.Returns? && made.value.Failure? ==> r == Returns(Failure(made.value.error))
    ensures made.Returns? && made.value.Success? && ParseResponse(made.value.data).Raises? ==>
              r == Raises(ParseResponse(made.value.data).exception)
    ensures made.Returns? && made.value.Success? && ParseResponse(made.value.data) == Returns(None) ==>
              r == Returns(Failure(NoMatch(address)))
    ensures made.Returns? && made.value.Success? && ParseResponse(made.value.data).Returns?
            && ParseResponse(made.value.data).value.Some? ==>
              r == Returns(Success(ParseResponse(made.value.data).value.value))
  {
    var result :- made;
    match result
    case Failure(e) => Returns(Failure(e))
    case Success(body) =>
      var parsed :- ParseResponse(body);
      if parsed.None? then Returns(Failure(NoMatch(address))) else Returns(Success(parsed.value))
  }

  /** A body with no match gives the NotFoundError naming the address. */
  lemma ResolveNoMatch(address: string, body: Json)
    requires ParseResponse(body) == Returns(None)
    ensures Resolve(address, Returns(Success(body))) == Returns(Failure(NoMatch(address)))
  {
  }

  class GoogleClient {
    const base: BaseClient
    const cache: CacheStore

    /** `initialize`: the API key comes from the credentials and the service name is GoogleGeocoder. */
    constructor(http: Connection, credentialsKey: Option<string>, cache: CacheStore, rt: Foreign)
      ensures base.apiKey == credentialsKey && base.http == http && base.serviceName == ServiceName
      ensures base.hook == NoBodyErrors && base.rt == rt && this.cache == cache
    {
      base := new BaseClient(credentialsKey, http, Some(ServiceName), "Clients::Geocoders::GoogleClient", NoBodyErrors, rt);
      this.cache := cache;
    }

    /** The request `geocode` makes: GET with exactly the address and the key. */
    function Request(address: string): Clients.Request
    {
      RequestFor("get", BaseUrl, [("address", JStr(address)), ("key", if base.apiKey.Some? then JStr(base.apiKey.value) else JNull)])
    }

    /** The outcome of the request for an address when `sentCount` requests went before it. */
    function Fetch(address: string, sentCount: nat): Raising<Result<LocationData, AppError>>
    {
      Resolve(address, Outcome(base.http.reply(Request(address), sentCount), base.serviceName, base.hook, base.rt))
    }

    /** The address is not blank and its key holds no live entry: `geocode` makes a request. */
    predicate Misses(address: Option<string>, entries: Entries, now: int)
    {
      !IsBlank(address) && Live(entries, now, CacheKey(address.value, base.rt)).None?
    }

    /** What `geocode` returns or raises, given the cache and the number of requests made before. */
    function Answer(address: Option<string>, entries: Entries, now: int, sentCount: nat): (r: Raising<Result<Location, AppError>>)
      requires WellTyped(entries)
      ensures IsBlank(address) ==> r == Returns(Failure(BlankAddress()))
      ensures Misses(address, entries, now) ==> r == ToLocation(Fetch(address.value, sentCount), base.rt)
    {
      if IsBlank(address) then Returns(Failure(BlankAddress()))
      else
        match Live(entries, now, CacheKey(address.value, base.rt))
        case Some(LocationRecord(d)) => Returns(Success(NewLocation(d, base.rt)))
        case Some(ForecastRecord(_)) => assert false; Returns(Failure(BlankAddress()))
        case None => ToLocation(Fetch(address.value, sentCount), base.rt)
    }

    /** What a miss writes to the cache: the attributes of a successful parse, nothing otherwise. */
    function Written(address: string, entries: Entries, now: int, sentCount: nat): Entries
    {
      match Fetch(address, sentCount)
      case Returns(Success(d)) => CacheStores.Written(entries, now, CacheKey(address, base.rt), LocationRecord(d), GeocodeTtl)
      case _ => entries
    }

    /** `geocode(address:)`. */
    method Geocode(address: Option<string>) returns (r: Raising<Result<Location, AppError>>)
      requires WellTyped(cache.entries)
      modifies base.http, cache
      ensures r == Answer(address, old(cache.entries), old(cache.now), |old(base.http.sent)|)
      ensures cache.now == old(cache.now) && WellTyped(cache.entries)
      ensures !Misses(address, old(cache.entries), old(cache.now)) ==>
                base.http.sent == old(base.http.sent) && cache.entries == old(cache.entries)
      ensures Misses(address, old(cache.entries), old(cache.now)) ==>
                base.http.sent == old(base.http.sent) + [Request(address.value)]
                && cache.entries == Written(address.value, old(cache.entries), old(cache.now), |old(base.http.sent)|)
    {
      if IsBlank(address) {
        return Returns(Failure(BlankAddress()));
      }
      var key := CacheKey(address.value, base.rt);
      var hit := cache.Read(key);
      if hit.Some? {
        return Returns(Success(NewLocation(hit.value.data, base.rt)));
      }
      var made := base.MakeRequest("get", BaseUrl, [("address", JStr(address.value)), ("key", if base.apiKey.Some? then JStr(base.apiKey.value) else JNull)]);
      var result := Resolve(address.value, made);
      r := ToLocation(result, base.rt);
      if result.Returns? && result.value.Success? {
        WrittenWellTyped(cache.entries, cache.now, key, LocationRecord(result.value.data), GeocodeTtl);
        cache.Write(key, LocationRecord(result.value.data), GeocodeTtl);
      }
    }

    /** A blank address fails with InvalidInputError; no cache read and no request happen. */
    lemma BlankAddressFails(address: Option<string>, entries: Entries, now: int, sentCount: nat)
      requires WellTyped(entries) && IsBlank(address)
      ensures Answer(address, entries, now, sentCount) == Returns(Failure(BlankAddress()))
      ensures !Misses(address, entries, now)
    {
    }

    /** A live entry is served as a Location, without a request. */
    lemma CacheHit(address: string, entries: Entries, now: int, sentCount: nat, d: LocationData)
      requires WellTyped(entries) && !IsBlank(Some(address))
      requires Live(entries, now, CacheKey(address, base.rt)) == Some(LocationRecord(d))
      ensures Answer(Some(address), entries, now, sentCount) == Returns(Success(NewLocation(d, base.rt)))
      ensures !Misses(Some(address), entries, now)
    {
    }

    /** After a successful lookup, the same address is served from the cache for 24 hours. */
    lemma ReadThrough(address: string, entries: Entries, now: int, sentCount: nat, later: int, laterCount: nat)
      requires WellTyped(entries) && Misses(Some(address), entries, now)
      requires Fetch(address, sentCount).Returns? && Fetch(address, sentCount).value.Success?
      requires now <= later < now + GeocodeTtl
      ensures WellTyped(Written(address, entries, now, sentCount))
      ensures Answer(Some(address), Written(address, entries, now, sentCount), later, laterCount)
              == Answer(Some(address), entries, now, sentCount)
    {
      var key := CacheKey(address, base.rt);
      var d := Fetch(address, sentCount).value.data;
      WrittenWellTyped(entries, now, key, LocationRecord(d), GeocodeTtl);
      ReadAfterWrite(entries, now, key, LocationRecord(d), GeocodeTtl, later);
    }

    /** A failure of the request, or a body without a match, leaves the cache unchanged. */
    lemma NothingCachedOnFailure(address: string, entries: Entries, now: int, sentCount: nat)
      requires !(Fetch(address, sentCount).Returns? && Fetch(address, sentCount).value.Success?)
      ensures Written(address, entries, now, sentCount) == entries
    {
    }
  }
}
