/**
 * `Rails.cache` as the clients and the forecast service use it: entries written with an
 * expiry (`expires_in`) and read back until they expire. The store is shared by all
 * callers and changes in place, so it is a class with a map field and a clock.
 */
module CacheStores {
  import opened Wrappers
  import opened Text
  import opened Locations
  import opened Forecasts
  import opened Runtime

  /** The records the application caches: geocoded location attributes and forecasts. */
  datatype CacheValue = LocationRecord(data: LocationData) | ForecastRecord(forecast: Forecast)

  /** A cached value and the second at which it expires. */
  datatype Entry = Entry(value: CacheValue, expiresAt: int)

  type Entries = map<string, Entry>

  /** The key namespaces of the three writers. */
  const GooglePrefix: string := "geocode/google/"
  const CensusPrefix: string := "geocode/census/"
  const ForecastPrefix: string := "weather:forecast:v1:"

  /** `24.hours` and `30.minutes`, in seconds. */
  const GeocodeTtl: nat := 86400
  const ForecastTtl: nat := 1800

  /** `read(key)` at second `now`: the value of an entry that has not expired yet, nil otherwise. */
  function Live(entries: Entries, now: int, key: string): (r: Option<CacheValue>)
    ensures r.Some? <==> key in entries && now < entries[key].expiresAt
    ensures r.Some? ==> r.value == entries[key].value
  {
    if key in entries && now < entries[key].expiresAt then Some(entries[key].value) else None
  }

  /** The entries after `write(key, value, expires_in: ttl)` at second `now`. */
  function Written(entries: Entries, now: int, key: string, value: CacheValue, ttl: nat): (r: Entries)
    ensures key in r && r[key] == Entry(value, now + ttl)
    ensures forall k :: k != key ==> (k in r <==> k in entries) && (k in entries ==> r[k] == entries[k])
  {
    entries[key := Entry(value, now + ttl)]
  }

  /** A value written with a positive time to live is read back until it expires. */
  lemma ReadAfterWrite(entries: Entries, now: int, key: string, value: CacheValue, ttl: nat, later: int)
    requires now <= later < now + ttl
    ensures Live(Written(entries, now, key, value, ttl), later, key) == Some(value)
  {
  }

  /** Once its time to live has passed, a written value is gone. */
  lemma ExpiredAfterTtl(entries: Entries, now: int, key: string, value: CacheValue, ttl: nat, later: int)
    requires later >= now + ttl
    ensures Live(Written(entries, now, key, value, ttl), later, key) == None
  {
  }

  /** Writing one key leaves every other key as it was. */
  lemma WriteOtherKey(entries: Entries, now: int, key: string, value: CacheValue, ttl: nat, other: string, t: int)
    requires other != key
    ensures Live(Written(entries, now, key, value, ttl), t, other) == Live(entries, t, other)
  {
  }

  /** `prefix + SHA1(address.downcase.strip)`: the key a geocoder caches an address under. */
  function GeocodeKey(prefix: string, address: string, rt: Foreign): (k: string)
    ensures StartsWith(k, prefix)
  {
    var k := prefix + rt.sha1Hex(Strip(Downcase(address)));
    assert k[..|prefix|] == prefix;
    k
  }

  /** Addresses that differ only in letter case share a key. */
  lemma GeocodeKeyIgnoresCase(prefix: string, a: string, b: string, rt: Foreign)
    requires Downcase(a) == Downcase(b)
    ensures GeocodeKey(prefix, a, rt) == GeocodeKey(prefix, b, rt)
  {
  }

  /** Surrounding whitespace does not change the key. */
  lemma GeocodeKeyIgnoresPadding(prefix: string, pre: string, address: string, post: string, rt: Foreign)
    requires forall i :: 0 <= i < |pre| ==> IsStripSpace(pre[i])
    requires forall i :: 0 <= i < |post| ==> IsStripSpace(post[i])
    ensures GeocodeKey(prefix, pre + address + post, rt) == GeocodeKey(prefix, address, rt)
  {
    assert Downcase(pre + address + post) == Downcase(pre) + Downcase(address) + Downcase(post);
    StripIgnoresPadding(Downcase(pre), Downcase(address), Downcase(post));
  }

  /** Geocode keys start with "geocode/"; no forecast key does. */
  predicate IsGeocodeKey(key: string)
  {
    StartsWith(key, "geocode/")
  }

  predicate IsForecastKey(key: string)
  {
    StartsWith(key, ForecastPrefix)
  }

  /** Every entry under a geocode key holds location attributes, and every entry under a forecast key a forecast. */
  ghost predicate WellTyped(entries: Entries)
  {
    forall k :: k in entries ==>
      (IsGeocodeKey(k) ==> entries[k].value.LocationRecord?) && (IsForecastKey(k) ==> entries[k].value.ForecastRecord?)
  }

  /** Each writer writes in its own namespace: the Google, Census and forecast keys never coincide. */
  lemma NamespacesDisjoint(a: string, b: string, c: string)
    ensures GooglePrefix + a != CensusPrefix + b
    ensures GooglePrefix + a != ForecastPrefix + c
    ensures CensusPrefix + b != ForecastPrefix + c
    ensures IsGeocodeKey(GooglePrefix + a) && IsGeocodeKey(CensusPrefix + b)
    ensures !IsForecastKey(GooglePrefix + a) && !IsForecastKey(CensusPrefix + b)
    ensures IsForecastKey(ForecastPrefix + c) && !IsGeocodeKey(ForecastPrefix + c)
  {
    assert (GooglePrefix + a)[8] == 'g' && (CensusPrefix + b)[8] == 'c';
    assert (GooglePrefix + a)[0] == 'g' && (ForecastPrefix + c)[0] == 'w';
    assert (CensusPrefix + b)[0] == 'g';
    assert (GooglePrefix + a)[..8] == "geocode/" && (CensusPrefix + b)[..8] == "geocode/";
    assert (ForecastPrefix + c)[..|ForecastPrefix|] == ForecastPrefix;
  }

  /** Writing a record of the kind its namespace holds keeps the store well typed. */
  lemma WrittenWellTyped(entries: Entries, now: int, key: string, value: CacheValue, ttl: nat)
    requires WellTyped(entries)
    requires IsGeocodeKey(key) ==> value.LocationRecord?
    requires IsForecastKey(key) ==> value.ForecastRecord?
    ensures WellTyped(Written(entries, now, key, value, ttl))
  {
  }

  class CacheStore {
    var entries: Entries
    /** The current time in seconds; the store only reads it. */
    var now: int

    constructor(now: int)
      ensures entries == map[] && this.now == now
    {
      entries := map[];
      this.now := now;
    }

    /** `read(key)`. */
    method Read(key: string) returns (r: Option<CacheValue>)
      ensures r == Live(entries, now, key)
    {
      if key in entries && now < entries[key].expiresAt {
        r := Some(entries[key].value);
      } else {
        r := None;
      }
    }

    /** `write(key, value, expires_in: ttl)`. */
    method Write(key: string, value: CacheValue, ttl: nat)
      modifies this
      ensures entries == Written(old(entries), now, key, value, ttl) && now == old(now)
    {
      entries := entries[key := Entry(value, now + ttl)];
    }

    /** Time passes. */
    method Advance(seconds: nat)
      modifies this
      ensures now == old(now) + seconds && entries == old(entries)
    {
      now := now + seconds;
    }
  }
}
