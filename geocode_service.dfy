/**
 * `Geocoding::GeocodeService.call`: rejects a blank address itself, passes anything else to
 * a geocoding client and turns whatever that client raises into a Failure.
 */
module GeocodeServices {
  import opened Wrappers
  import opened Text
  import opened JsonValue
  import opened Errors
  import opened Service
  import opened Locations
  import opened CacheStores
  import opened Clients
  import opened RubyJson
  import GoogleGeocoders
  import CensusGeocoders
  import GeocodeResults

  /** The clients the service accepts; both answer `geocode(address:)`. */
  datatype Geocoder = Google(google: GoogleGeocoders.GoogleClient) | Census(census: CensusGeocoders.CensusClient)
  {
    /** The connection the client sends its requests through. */
    function Http(): Connection
    {
      match this
      case Google(g) => g.base.http
      case Census(c) => c.base.http
    }

    /** The cache the client reads and writes. */
    function Cache(): CacheStore
    {
      match this
      case Google(g) => g.cache
      case Census(c) => c.cache
    }

    /** What the client's `geocode` returns or raises. */
    function Answer(address: Option<string>, entries: Entries, now: int, sentCount: nat): Raising<Result<Location, AppError>>
      requires WellTyped(entries)
    {
      match this
      case Google(g) => g.Answer(address, entries, now, sentCount)
      case Census(c) => c.Answer(address, entries, now, sentCount)
    }

    /** The client makes a request for the address. */
    predicate Misses(address: Option<string>, entries: Entries, now: int)
    {
      match this
      case Google(g) => g.Misses(address, entries, now)
      case Census(c) => c.Misses(address, entries, now)
    }

    /** The request the client makes for an address. */
    function Request(address: string): Clients.Request
    {
      match this
      case Google(g) => g.Request(address)
      case Census(c) => c.Request(address)
    }

    /** What the client's cache holds after a miss. */
    function Written(address: string, entries: Entries, now: int, sentCount: nat): Entries
    {
      match this
      case Google(g) => g.Written(address, entries, now, sentCount)
      case Census(c) => c.Written(address, entries, now, sentCount)
    }

    /** `client.geocode(address:)`. */
    method Geocode(address: Option<string>) returns (r: Raising<Result<Location, AppError>>)
      requires WellTyped(Cache().entries)
      modifies Http(), Cache()
      ensures r == Answer(address, old(Cache().entries), old(Cache().now), |old(Http().sent)|)
      ensures Cache().now == old(Cache().now) && WellTyped(Cache().entries)
      ensures !Misses(address, old(Cache().entries), old(Cache().now)) ==>
                Http().sent == old(Http().sent) && Cache().entries == old(Cache().entries)
      ensures Misses(address, old(Cache().entries), old(Cache().now)) ==>
                Http().sent == old(Http().sent) + [Request(address.value)]
                && Cache().entries == Written(address.value, old(Cache().entries), old(Cache().now), |old(Http().sent)|)
    {
      match this
      case Google(g) => r := g.Geocode(address);
      case Census(c) => r := c.Geocode(address);
    }
  }

  /** The service's own blank check, which runs before the client's and ends its message with a period. */
  function BlankFailure(): (e: AppError)
    ensures e.InvalidInputError? && e.message == "Address cannot be blank." && e.statusCode == Some(400)
    ensures e.field.None? && e.reason.None?
  {
    NewInvalidInputError("Address cannot be blank.")
  }

  /** The failure for an exception the client raised: its message after a fixed prefix, status 500. */
  function RescuedFailure(e: Exception): (f: AppError)
    ensures f.ApplicationError? && f.statusCode == Some(500) && f.originalHttpStatus.None?
    ensures f.message == "An unexpected error occurred: " + e.Message()
  {
    NewApplicationError("An unexpected error occurred: " + e.Message())
  }

  /**
   * What `call` returns: never an exception; the blank failure without consulting the
   * client; otherwise what the client returns, or the rescued failure for what it raises.
   */
  function Answer(address: Option<string>, client: Geocoder, entries: Entries, now: int, sentCount: nat)
    : (r: Result<Location, AppError>)
    requires WellTyped(entries)
    ensures IsBlank(address) ==> r == Failure(BlankFailure())
    ensures !IsBlank(address) && client.Answer(address, entries, now, sentCount).Returns? ==>
              r == client.Answer(address, entries, now, sentCount).value
    ensures !IsBlank(address) && client.Answer(address, entries, now, sentCount).Raises? ==>
              r == Failure(RescuedFailure(client.Answer(address, entries, now, sentCount).exception))
  {
    if IsBlank(address) then Failure(BlankFailure())
    else
      match client.Answer(address, entries, now, sentCount)
      case Returns(result) => result
      case Raises(e) => Failure(RescuedFailure(e))
  }

  /** `GeocodeService.call(address, client:)`. */
  method Call(address: Option<string>, client: Geocoder) returns (r: Result<Location, AppError>)
    requires WellTyped(client.Cache().entries)
    modifies client.Http(), client.Cache()
    ensures r == Answer(address, client, old(client.Cache().entries), old(client.Cache().now), |old(client.Http().sent)|)
    ensures WellTyped(client.Cache().entries) && client.Cache().now == old(client.Cache().now)
    ensures IsBlank(address) || !client.Misses(address, old(client.Cache().entries), old(client.Cache().now)) ==>
              client.Http().sent == old(client.Http().sent) && client.Cache().entries == old(client.Cache().entries)
    ensures !IsBlank(address) && client.Misses(address, old(client.Cache().entries), old(client.Cache().now)) ==>
              client.Http().sent == old(client.Http().sent) + [client.Request(address.value)]
              && client.Cache().entries
                 == client.Written(address.value, old(client.Cache().entries), old(client.Cache().now), |old(client.Http().sent)|)
  {
    if IsBlank(address) {
      return Failure(BlankFailure());
    }
    var made := client.Geocode(address);
    match made
    case Returns(result) => r := result;
    case Raises(e) => r := Failure(RescuedFailure(e));
  }

  /** The client's own blank check is never what the caller sees for a blank address: the service answers first. */
  lemma BlankCheckedByService(address: Option<string>, client: Geocoder, entries: Entries, now: int, sentCount: nat)
    requires WellTyped(entries) && IsBlank(address)
    ensures Answer(address, client, entries, now, sentCount) != Failure(GeocodeResults.BlankAddress())
    ensures Answer(address, client, entries, now, sentCount).error.message == "Address cannot be blank."
  {
    assert BlankFailure().message != GeocodeResults.BlankAddress().message by {
      assert |BlankFailure().message| != |GeocodeResults.BlankAddress().message|;
    }
  }

  /**
   * A Census reply whose `result` is a string makes `dig` raise TypeError inside
   * `parse_response`; the service turns that into an ApplicationError naming it.
   */
  lemma CensusMalformedBody(address: string, client: CensusGeocoders.CensusClient, entries: Entries, now: int,
                            sentCount: nat, status: int, ms: Members, text: string)
    requires WellTyped(entries) && client.Misses(Some(address), entries, now)
    requires client.base.hook == NoBodyErrors && 200 <= status <= 299
    requires client.base.http.reply(client.Request(address), sentCount) == Response(status, JObj(ms))
    requires Lookup(ms, "result") == Some(JStr(text))
    ensures Answer(Some(address), Census(client), entries, now, sentCount)
            == Failure(NewApplicationError("An unexpected error occurred: " + "String does not have #dig method"))
  {
    client.StringResultEscapes(address, entries, now, sentCount, status, ms, text);
  }
}
