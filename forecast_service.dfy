/**
 * `Weather::ForecastService.call`: the forecast for a location's zip code, served from the
 * cache for 30 minutes, with a flag saying whether it came from the cache.
 */
module ForecastServices {
  import opened Wrappers
  import opened Text
  import opened Errors
  import opened Service
  import opened Locations
  import opened Forecasts
  import opened CacheStores
  import opened Presenters
  import opened OpenWeatherMap

  /**
   * A nil location meets `raise InvalidInputError`, a constant that does not resolve inside
   * `Weather::ForecastService`: Ruby raises NameError before the rescue is entered.
   */
  const UnresolvedConstant: Exception :=
    RubyError("NameError", "uninitialized constant Weather::ForecastService::InvalidInputError", None)

  const UnexpectedMessage: string := "An unexpected error occurred"

  /** The cache key: the versioned forecast namespace and the location's zip code. */
  function ForecastKey(location: Location): (k: string)
    ensures IsForecastKey(k) && !IsGeocodeKey(k)
    ensures k[|ForecastPrefix|..] == location.zipCode
  {
    NamespacesDisjoint("", "", location.zipCode);
    ForecastPrefix + location.zipCode
  }

  /** Two locations share a cache entry exactly when their zip codes agree, whatever their coordinates. */
  lemma ForecastKeyByZip(l1: Location, l2: Location)
    ensures ForecastKey(l1) == ForecastKey(l2) <==> l1.zipCode == l2.zipCode
  {
    if ForecastKey(l1) == ForecastKey(l2) {
      assert ForecastKey(l1)[|ForecastPrefix|..] == ForecastKey(l2)[|ForecastPrefix|..];
    }
  }

  /** The failure for an exception the client raises inside the cache block. */
  function UnexpectedFailure(): (e: AppError)
    ensures e.ApplicationError? && e.message == UnexpectedMessage && e.statusCode == Some(500)
    ensures e.originalHttpStatus.None? && e.backtrace.None?
  {
    NewApplicationError(UnexpectedMessage)
  }

  /** The forecast is not in the cache: the block runs and asks the client. */
  predicate Misses(location: Option<Location>, entries: Entries, now: int)
  {
    location.Some? && Live(entries, now, ForecastKey(location.value)).None?
  }

  /**
   * What `call` returns or raises: a live cached forecast with `cached` true; otherwise the
   * client's failure verbatim, its forecast with `cached` false, or the generic failure for
   * anything it raises.
   */
  function Answer(location: Option<Location>, client: OpenWeatherMapClient, entries: Entries, now: int,
                  sentCount: nat): (r: Raising<Result<ForecastResult, AppError>>)
    requires WellTyped(entries)
    ensures r.Raises? <==> location.None?
    ensures r.Raises? ==> r.exception == UnresolvedConstant
    ensures r.Returns? && r.value.Success? ==> (r.value.data.cached <==> !Misses(location, entries, now))
    ensures Misses(location, entries, now) && client.Answer(location, sentCount).Raises? ==>
              r == Returns(Failure(UnexpectedFailure()))
    ensures Misses(location, entries, now) && client.Answer(location, sentCount).Returns?
            && client.Answer(location, sentCount).value.Failure? ==>
              r == Returns(Failure(client.Answer(location, sentCount).value.error))
    ensures Misses(location, entries, now) && client.Answer(location, sentCount).Returns?
            && client.Answer(location, sentCount).value.Success? ==>
              r == Returns(Success(ForecastResult(client.Answer(location, sentCount).value.data, false)))
    ensures location.Some? && Live(entries, now, ForecastKey(location.value)).Some? ==>
              Live(entries, now, ForecastKey(location.value)).value.ForecastRecord?
              && r == Returns(Success(ForecastResult(Live(entries, now, ForecastKey(location.value)).value.forecast, true)))
  {
    match location
    case None => Raises(UnresolvedConstant)
    case Some(l) =>
      match Live(entries, now, ForecastKey(l))
      case Some(ForecastRecord(f)) => Returns(Success(ForecastResult(f, true)))
      case Some(LocationRecord(_)) => assert false; Raises(UnresolvedConstant)
      case None =>
        match client.Answer(location, sentCount)
        case Raises(_) => Returns(Failure(UnexpectedFailure()))
        case Returns(Failure(e)) => Returns(Failure(e))
        case Returns(Success(f)) => Returns(Success(ForecastResult(f, false)))
  }

  /** What the cache holds after `call`: a fetched forecast is written for 30 minutes; nothing else is written. */
  function Written(location: Option<Location>, client: OpenWeatherMapClient, entries: Entries, now: int,
                   sentCount: nat): Entries
  {
    if Misses(location, entries, now) then
      match client.Answer(location, sentCount)
      case Returns(Success(f)) => CacheStores.Written(entries, now, ForecastKey(location.value), ForecastRecord(f), ForecastTtl)
      case _ => entries
    else entries
  }

  /** `ForecastService.call(location:, client:)` against the cache store. */
  method Call(location: Option<Location>, client: OpenWeatherMapClient, cache: CacheStore)
    returns (r: Raising<Result<ForecastResult, AppError>>)
    requires WellTyped(cache.entries)
    modifies client.base.http, cache
    ensures r == Answer(location, client, old(cache.entries), old(cache.now), |old(client.base.http.sent)|)
    ensures cache.entries == Written(location, client, old(cache.entries), old(cache.now), |old(client.base.http.sent)|)
    ensures cache.now == old(cache.now) && WellTyped(cache.entries)
    ensures Misses(location, old(cache.entries), old(cache.now)) ==>
              client.base.http.sent == old(client.base.http.sent) + client.Requests(location)
    ensures !Misses(location, old(cache.entries), old(cache.now)) ==> client.base.http.sent == old(client.base.http.sent)
  {
    if location.None? {
      return Raises(UnresolvedConstant);
    }
    var cached := true;
    var key := ForecastKey(location.value);
    var hit := cache.Read(key);
    var forecast: Forecast;
    if hit.Some? {
      forecast := hit.value.forecast;
    } else {
      cached := false;
      var result := client.Forecast(location);
      if result.Raises? {
        return Returns(Failure(UnexpectedFailure()));
      }
      if result.value.Failure? {
        return Returns(Failure(result.value.error));
      }
      forecast := result.value.data;
      WrittenWellTyped(cache.entries, cache.now, key, ForecastRecord(forecast), ForecastTtl);
      cache.Write(key, ForecastRecord(forecast), ForecastTtl);
    }
    r := Returns(Success(ForecastResult(forecast, cached)));
  }

  /** Within 30 minutes of a fetched forecast, a call for the same zip code serves it from the cache. */
  lemma SecondCallCached(location: Location, other: Location, client: OpenWeatherMapClient, entries: Entries,
                         now: int, sentCount: nat, later: int, laterCount: nat)
    requires WellTyped(entries) && Misses(Some(location), entries, now)
    requires client.Answer(Some(location), sentCount).Returns? && client.Answer(Some(location), sentCount).value.Success?
    requires other.zipCode == location.zipCode && now <= later < now + ForecastTtl
    ensures WellTyped(Written(Some(location), client, entries, now, sentCount))
    ensures Answer(Some(other), client, Written(Some(location), client, entries, now, sentCount), later, laterCount)
            == Returns(Success(ForecastResult(client.Answer(Some(location), sentCount).value.data, true)))
  {
    var f := client.Answer(Some(location), sentCount).value.data;
    var key := ForecastKey(location);
    ForecastKeyByZip(location, other);
    WrittenWellTyped(entries, now, key, ForecastRecord(f), ForecastTtl);
    ReadAfterWrite(entries, now, key, ForecastRecord(f), ForecastTtl, later);
  }

  /** A failure, or an exception, from the client leaves the cache as it was. */
  lemma NothingCachedOnFailure(location: Option<Location>, client: OpenWeatherMapClient, entries: Entries,
                               now: int, sentCount: nat)
    requires !(client.Answer(location, sentCount).Returns? && client.Answer(location, sentCount).value.Success?)
    ensures Written(location, client, entries, now, sentCount) == entries
  {
  }

  /** A forecast served by `call` always passes the Forecast validation. */
  lemma ServedForecastsValid(location: Option<Location>, client: OpenWeatherMapClient, entries: Entries, now: int,
                             sentCount: nat)
    requires WellTyped(entries) && Misses(location, entries, now)
    requires Answer(location, client, entries, now, sentCount).Returns?
    requires Answer(location, client, entries, now, sentCount).value.Success?
    ensures Answer(location, client, entries, now, sentCount).value.data.forecast.IsValid()
  {
  }
}
