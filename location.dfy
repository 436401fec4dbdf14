/**
 * The `Location` model: seven ActiveModel attributes, a zip-code setter that keeps only
 * ASCII letters and digits, presence validations on the full address and the zip code,
 * and `to_s`. A Location is never changed after it is built, so it is a value here and the
 * setter is a functional update.
 */
module Locations {
  import opened Wrappers
  import opened Text
  import opened JsonValue
  import opened Errors
  import opened Runtime
  import opened RubyJson

  /** The attribute hash the geocoders build and cache: one value per attribute. */
  datatype LocationData = LocationData(latitude: Json, longitude: Json, zipCode: Json, city: Json,
                                       stateCode: Json, country: Json, fullAddress: Json)

  /**
   * A Location. Latitude and longitude keep the assigned value and are cast to Float when
   * read; the string attributes hold their cast value.
   */
  datatype Location = Location(latitude: Json, longitude: Json, zipCode: string, city: Option<string>,
                               stateCode: Option<string>, country: Option<string>, fullAddress: Option<string>)
  {
    /** `location.latitude`: the float cast of the assigned value, which raises for a non-empty array or hash. */
    function Latitude(rt: Foreign): Raising<Option<string>>
    {
      FloatCast(latitude, rt)
    }

    /** `location.longitude`. */
    function Longitude(rt: Foreign): Raising<Option<string>>
    {
      FloatCast(longitude, rt)
    }

    /** `zip_code=`: stores the normalised zip code; nothing else changes. */
    function SetZipCode(value: Json, rt: Foreign): (l: Location)
      ensures l.zipCode == NormalizeZip(value, rt)
      ensures l.(zipCode := zipCode) == this
    {
      this.(zipCode := NormalizeZip(value, rt))
    }

    /** `valid?`: the full address and the zip code are both present. */
    predicate IsValid()
    {
      !IsBlank(fullAddress) && !IsBlank(Some(zipCode))
    }

    /** `to_s`: the full address (nil when there is none). */
    function ToS(): (s: Option<string>)
      ensures s == fullAddress
    {
      fullAddress
    }
  }

  /** `value.to_s.gsub(/[^0-9A-Za-z]/, "")`: only ASCII letters and digits remain, in order. */
  function NormalizeZip(value: Json, rt: Foreign): (z: string)
    ensures forall i :: 0 <= i < |z| ==> IsAsciiAlnum(z[i])
    ensures |z| <= |RubyJson.ToS(value, rt)|
    ensures value.JNull? ==> z == ""
  {
    Keep(RubyJson.ToS(value, rt), IsAsciiAlnum)
  }

  /** `Location.new(data)`: every attribute assigned, the zip code through its setter. */
  function NewLocation(data: LocationData, rt: Foreign): (l: Location)
    ensures l.latitude == data.latitude && l.longitude == data.longitude
    ensures l.zipCode == NormalizeZip(data.zipCode, rt)
    ensures l.fullAddress == StringCast(data.fullAddress, rt) && l.city == StringCast(data.city, rt)
    ensures l.stateCode == StringCast(data.stateCode, rt) && l.country == StringCast(data.country, rt)
  {
    Location(data.latitude, data.longitude, "", StringCast(data.city, rt), StringCast(data.stateCode, rt),
             StringCast(data.country, rt), StringCast(data.fullAddress, rt)).SetZipCode(data.zipCode, rt)
  }

  /** Normalising an already normalised zip code changes nothing. */
  lemma NormalizeZipIdempotent(value: Json, rt: Foreign)
    ensures NormalizeZip(JStr(NormalizeZip(value, rt)), rt) == NormalizeZip(value, rt)
  {
    KeepIdempotent(RubyJson.ToS(value, rt), IsAsciiAlnum);
  }

  /** A zip code made of letters and digits is stored as given. */
  lemma NormalizeZipKeepsAlnum(zip: string, rt: Foreign)
    requires forall i :: 0 <= i < |zip| ==> IsAsciiAlnum(zip[i])
    ensures NormalizeZip(JStr(zip), rt) == zip
  {
    KeepAll(zip, IsAsciiAlnum);
  }

  /** Every letter and digit of the assigned text survives normalisation. */
  lemma NormalizeZipRetains(zip: string, i: nat, rt: Foreign)
    requires i < |zip| && IsAsciiAlnum(zip[i])
    ensures zip[i] in NormalizeZip(JStr(zip), rt)
  {
    KeepRetains(zip, IsAsciiAlnum, i);
  }

  /** A zip code with no letter or digit normalises to "", which makes any Location invalid. */
  lemma PunctuationZipInvalid(l: Location, zip: string, rt: Foreign)
    requires forall i :: 0 <= i < |zip| ==> !IsAsciiAlnum(zip[i])
    ensures NormalizeZip(JStr(zip), rt) == ""
    ensures !l.SetZipCode(JStr(zip), rt).IsValid()
  {
    KeepNone(zip, IsAsciiAlnum);
  }

  /** A nil zip code becomes "" and makes any Location invalid. */
  lemma NilZipInvalid(l: Location, rt: Foreign)
    ensures l.SetZipCode(JNull, rt).zipCode == ""
    ensures !l.SetZipCode(JNull, rt).IsValid()
  {
  }

  /** Validity depends on the full address and the zip code only, and needs both. */
  lemma ValidityFromData(data: LocationData, rt: Foreign)
    ensures NewLocation(data, rt).IsValid() <==>
              !IsBlank(StringCast(data.fullAddress, rt)) && NormalizeZip(data.zipCode, rt) != []
  {
    var z := NormalizeZip(data.zipCode, rt);
    if z != [] {
      assert !IsUnicodeSpace(z[0]);
    }
  }

  /** Separators between the letters and digits of a zip code are dropped: "950-14" is stored as "95014". */
  lemma NormalizeZipDropsSeparators(head: string, sep: string, tail: string, rt: Foreign)
    requires forall i :: 0 <= i < |head| ==> IsAsciiAlnum(head[i])
    requires forall i :: 0 <= i < |sep| ==> !IsAsciiAlnum(sep[i])
    requires forall i :: 0 <= i < |tail| ==> IsAsciiAlnum(tail[i])
    ensures NormalizeZip(JStr(head + sep + tail), rt) == head + tail
  {
    KeepDropsMiddle(head, sep, tail, IsAsciiAlnum);
  }

  /** The Location of spec/models/location_spec.rb:6-16 is valid and prints as its full address. */
  lemma LocationExample(rt: Foreign)
    ensures var data := LocationData(JNum(Float("37.33182")), JNum(Float("-122.03118")), JStr("95014"),
                                     JStr("Cupertino"), JStr("CA"), JStr("US"),
                                     JStr("1 Infinite Loop, Cupertino, CA 95014"));
            var l := NewLocation(data, rt);
            l.IsValid() && l.zipCode == "95014" && l.ToS() == Some("1 Infinite Loop, Cupertino, CA 95014")
  {
    var zip, address := "95014", "1 Infinite Loop, Cupertino, CA 95014";
    var data := LocationData(JNum(Float("37.33182")), JNum(Float("-122.03118")), JStr(zip),
                             JStr("Cupertino"), JStr("CA"), JStr("US"), JStr(address));
    assert zip[0] == '9' && address[0] == '1';
    assert forall i :: 0 <= i < |zip| ==> IsAsciiDigit(zip[i]);
    ValidLocation(data, zip, address, rt);
  }

  /** A record whose zip code is letters and digits and whose full address does not start blank is valid, and keeps both. */
  lemma ValidLocation(data: LocationData, zip: string, address: string, rt: Foreign)
    requires data.zipCode == JStr(zip) && data.fullAddress == JStr(address)
    requires zip != [] && forall i :: 0 <= i < |zip| ==> IsAsciiDigit(zip[i]) || IsAsciiLetter(zip[i])
    requires address != [] && !IsUnicodeSpace(address[0])
    ensures NewLocation(data, rt).IsValid() && NewLocation(data, rt).zipCode == zip
    ensures NewLocation(data, rt).ToS() == Some(address)
  {
    NormalizeZipKeepsAlnum(zip, rt);
    assert !IsUnicodeSpace(zip[0]);
  }

  /** The same record without a full address, or without a zip code, is invalid. */
  lemma LocationMissingFields(data: LocationData, rt: Foreign)
    ensures !NewLocation(data.(fullAddress := JNull), rt).IsValid()
    ensures !NewLocation(data.(zipCode := JNull), rt).IsValid()
  {
  }
}
