# weather_app core in Dafny

This project models the service layer of a Rails weather application. A user gives a street
address. A geocoding client (Google or the US Census) turns it into a `Location`. The OpenWeatherMap
client turns that location's coordinates into a `Forecast`, which `Weather::ForecastService` keeps
in the Rails cache for 30 minutes per zip code. `ForecastPresenter` renders the result as JSON.

The following parts are modelled:

- **`Clients::BaseClient`**: one HTTP request per call, and the classification of every outcome into
  a `Service::Success` or `Service::Failure`. Outcomes are a 2xx response, an error status, a
  network failure, a Faraday client error, a JSON parse failure, or any other exception.
- **BaseClient helpers**: the error table by status, the extraction of a message from an error body,
  the default service name, and the recursive redaction of credentials.
- **The three clients**: `GoogleClient` and `CensusClient` read through the cache with a 24-hour
  entry per digest of the normalised address. `OpenWeatherMapClient` builds a `Forecast` from the
  weather body.
- **`Geocoding::GeocodeService` and `Weather::ForecastService`**: the services over those clients.
- **Errors and results**: the error hierarchy (`ApplicationError` and its five subclasses with
  their message formats) and the `Service::Result` types.
- **ActiveModel classes**: `Location`, `Temperature` and `Forecast` with their attribute casts and
  validations, the address normalisation of `ForecastQueryForm`, and `ForecastPresenter`.

Ruby behaviour is written out explicitly:

- A Ruby exception is an `Errors.Exception`. "Returns or raises" is `Errors.Raising`, used with `:-`
  so that an exception propagates exactly where Ruby would propagate it.
- Parsed JSON is `JsonValue.Json`. A hash is an ordered list of entries, and `[]` returns the last
  entry with the key.
- The Ruby methods the code calls on JSON values (`[]`, `fetch`, `dig`, `first`, `include?`,
  `Time.at`, the ActiveModel float and string casts) are in `RubyJson`. Each one raises the
  exception Ruby raises for a receiver of the wrong kind.
- Foreign computations are fields of `Runtime.Foreign`, passed as a parameter:
  - the SHA-1 hex digest;
  - `JSON.parse`;
  - the rendering of a parsed float;
  - `inspect`.
- The HTTP connection is a `Clients.Connection` object. It keeps the log of the requests sent, and
  its answer to the n-th request is a fixed function of the request and n.
- `Rails.cache` is a `CacheStores.CacheStore` object: a map from keys to entries with an expiry
  instant, plus a clock.

Where the code does something other than its tests or its names suggest, the model follows the code, with the one exception of symbol keys below:

- **400 and 422 responses.** The error table picks `InvalidInputError` or `ValidationError`.
  Those constructors do not accept the `service_name:` and `response_body:` keywords that
  `build_error_from_response` passes, so the call raises `ArgumentError`:
  - Inside `make_request`, the catch-all rescue turns that into an `ApplicationError` "Unexpected
    error during HTTP Request Execution: unknown keywords: :service_name, :response_body"
    (`Clients.KeywordStatusesOutcome`).
  - For a Faraday client error carrying such a response, the raise happens inside a rescue clause
    and escapes `make_request` (`Clients.OutcomeRaises`).
- **API keys.** `GoogleClient` and `OpenWeatherMapClient` merge the credentials key after the
  caller's keywords, so a caller's `api_key:` is always replaced.
- **Nil location.** `Weather::ForecastService.call` with a nil location raises `NameError` (the
  unqualified `InvalidInputError` does not resolve inside `Weather::ForecastService`). It does not
  return a Failure.
- **Symbol keys.** This is the one place where the model does not follow the code. `default_http_client`
  parses bodies with `symbolize_names: true` (base_client.rb:154), but `GoogleClient#parse_response`
  reads `body["status"]` and `CensusClient#parse_response` reads `body.dig("result", ...)` with
  string keys. The model identifies symbol and string keys, so it describes the bodies those
  parsers expect (see "## Left out").
- **Blank address.** `Geocoding::GeocodeService` rejects a blank address with "Address cannot be
  blank." (with a period) before any client sees it. The clients' own message has no period.

## Model

| member | source | states |
|---|---|---|
| Service.Result.Data | app/services/service.rb:11-13 | `data` returns the value of a Success and raises NoMethodError with the fixed message on a Failure |
| Service.Result.Error | app/services/service.rb:15-17 | `error` returns the error of a Failure and raises NoMethodError on a Success |
| Service.NewSuccess | app/services/service.rb:20-31 | a Success is `success?`, not `failure?`, and returns its data |
| Service.NewFailure | app/services/service.rb:33-45 | a nil error raises ArgumentError "Failure error cannot be nil"; otherwise the Failure is `failure?` and returns its error |
| Service.ResultAccessors | app/services/service.rb:7-9 | `failure?` is the negation of `success?`; exactly one of `data` and `error` returns |
| Errors.ServiceTag | app/lib/errors.rb:26 | the tag is the service name in brackets, or "[External Service]" without one |
| Errors.StatusMessage | app/lib/errors.rb:25-30 | the message starts with the service tag, ends with a space and the base message, and has the Status segment exactly when a code is given |
| Errors.StatusMessageDeterminesCode | app/lib/errors.rb:25-30 | two messages that differ only in the status code differ |
| Errors.FieldMessage | app/lib/errors.rb:45-50 | the message is the base, then " (Field: f)" when there is a field, then " - r" when there is a reason |
| Errors.NewApplicationError | app/lib/errors.rb:5-9 | the message is kept verbatim, status 500 by default, no original HTTP status |
| Errors.NewExternalApiError | app/lib/errors.rb:15-22 | a nil status becomes 503; the message carries the service tag and that status; the service name and body are kept |
| Errors.NewInvalidInputError | app/lib/errors.rb:36-42 | status 400 by default; the field and reason are kept and appended to the message |
| Errors.NetworkMessage | app/lib/errors.rb:59-60 | the message is the tag, a space and the base, then ": " and the cause's message exactly when that message is present |
| Errors.NetworkMessageWithCause | app/lib/errors.rb:59-60 | with a cause that has a message, the message is the tag, the base, ": " and the cause's message |
| Errors.InheritedBacktrace | app/lib/errors.rb:62 | the backtrace is taken over exactly when the cause has a non-empty one |
| Errors.NewNetworkError | app/lib/errors.rb:56-63 | status 503 and no original HTTP status whatever the caller passes; the cause is kept |
| Errors.NewNotFoundError | app/lib/errors.rb:69-75 | status 404 by default; the message carries the service tag and the status |
| Errors.NewValidationError | app/lib/errors.rb:89-95 | status 422 by default; the field and reason are appended to the message |
| Errors.DefaultErrors | app/lib/errors.rb:5-95 | the default messages and codes of every class without arguments |
| Errors.DefaultExternalApiError | app/lib/errors.rb:15-30 | the default ExternalApiError reads "[External Service] (Status: 503) External API Error" |
| Errors.DefaultNotFoundError | app/lib/errors.rb:69-83 | the default NotFoundError reads "[External Service] (Status: 404) Resource Not Found" |
| Errors.ExternalApiErrorExample | app/lib/errors.rb:15-30 | a named service and status give "[WeatherAPI] (Status: 503) API failed" |
| Errors.NotFoundErrorExample | app/lib/errors.rb:69-83 | a named service gives "[DB] (Status: 404) Address not found" |
| Errors.ApplicationErrorExample | app/lib/errors.rb:5-9 | an ApplicationError keeps the given message |
| Errors.InvalidInputErrorExample | app/lib/errors.rb:36-50 | field and reason give "Bad input (Field: email) - invalid format" |
| Errors.ValidationErrorExample | app/lib/errors.rb:89-103 | field and reason give "Invalid data (Field: name) - too short" |
| Errors.NetworkErrorExample | app/lib/errors.rb:56-63 | a cause's message is appended after the tag and the base message |
| Locations.Location.SetZipCode | app/models/location.rb:20-23 | the setter stores the normalised zip code and changes no other attribute |
| Locations.Location.ToS | app/models/location.rb:16-18 | `to_s` is the full address |
| Locations.NormalizeZip | app/models/location.rb:21 | only ASCII letters and digits remain, never more characters than the input's text; nil gives "" |
| Locations.NewLocation | app/models/location.rb:5-11 | each attribute is the cast of the given value, and the zip code goes through its setter |
| Locations.NormalizeZipIdempotent | app/models/location.rb:21 | normalising twice is normalising once |
| Locations.NormalizeZipKeepsAlnum | app/models/location.rb:21 | a zip code of letters and digits is kept unchanged |
| Locations.NormalizeZipRetains | app/models/location.rb:21 | every letter or digit of the input survives |
| Locations.NormalizeZipDropsSeparators | app/models/location.rb:21 | "95014-1234"-style separators are removed and both halves joined |
| Locations.PunctuationZipInvalid | app/models/location.rb:14-22 | a zip code of punctuation only normalises to "" and makes the location invalid |
| Locations.NilZipInvalid | app/models/location.rb:14-22 | a nil zip code is stored as "" and the location is invalid |
| Locations.ValidityFromData | app/models/location.rb:13-14 | a built location is valid exactly when its full address and normalised zip code are present |
| Locations.LocationMissingFields | app/models/location.rb:13-14 | without a full address, or without a zip code, the location is invalid |
| Locations.ValidLocation | app/models/location.rb:13-23 | a non-empty alphanumeric zip code and a full address not starting with a space make a valid location whose `to_s` is that address |
| Locations.LocationExample | app/models/location.rb:5-23 | the Cupertino example builds a valid location with the given attributes |
| Temperatures.Temperature.IsValid | app/models/temperature.rb:8-9 | valid exactly when the value is present and the unit is C, F or K; raises when the value cannot be cast |
| Temperatures.Temperature.ToS | app/models/temperature.rb:11-13 | `to_s` is the value, "° " and the unit, with nil rendered as "" |
| Temperatures.ToSNeverBlank | app/models/temperature.rb:11-13 | `to_s` is never blank and always holds the degree sign, valid or not |
| Temperatures.MissingPartInvalid | app/models/temperature.rb:8-9 | a missing value or a missing unit makes the temperature invalid |
| Temperatures.OtherUnitInvalid | app/models/temperature.rb:9 | any unit other than C, F and K is invalid |
| Temperatures.ValidTemperature | app/models/temperature.rb:8-9 | a present value with unit C, F or K is valid |
| Temperatures.TemperatureExample | app/models/temperature.rb:5-13 | 37.0 in C is valid and renders as "37.0° C" |
| Forecasts.Forecast.Errors | app/models/forecast.rb:11 | no errors exactly when valid; otherwise "can't be blank" on the current temperature |
| Forecasts.Forecast.FullMessages | app/models/forecast.rb:11 | the one full message is "Current temperature can't be blank" |
| Forecasts.NewForecast | app/models/forecast.rb:5-9 | the string attributes are the string casts of the given values; the time is kept |
| Forecasts.ValidityIgnoresOtherFields | app/models/forecast.rb:11 | validity depends on the current temperature only |
| Forecasts.MissingCurrentTemperature | app/models/forecast.rb:11 | a missing current temperature is invalid |
| Forecasts.WhitespaceCurrentTemperature | app/models/forecast.rb:11 | a whitespace-only current temperature is invalid |
| Forecasts.PresentCurrentTemperature | app/models/forecast.rb:11 | a current temperature with a visible character is valid with no messages |
| QueryForms.Normalize | app/forms/forecast_query_form.rb:9-12 | the stored address has at most 255 characters, all letters, digits, whitespace, comma, period or hyphen |
| QueryForms.ForecastQueryForm.constructor | app/forms/forecast_query_form.rb:4 | a new form has no address |
| QueryForms.ForecastQueryForm.SetAddress | app/forms/forecast_query_form.rb:8-13 | the setter stores the normalisation of the value's text |
| QueryForms.NilAddressInvalid | app/forms/forecast_query_form.rb:6-12 | assigning nil stores "" and the form is invalid |
| QueryForms.NormalizedCharacters | app/forms/forecast_query_form.rb:9-12 | the only whitespace left in a stored address is the plain space |
| QueryForms.CleanAddressUnchanged | app/forms/forecast_query_form.rb:9-12 | a clean, single-spaced address of at most 255 characters is stored as given |
| QueryForms.PaddedAddress | app/forms/forecast_query_form.rb:9 | surrounding whitespace is stripped from such an address |
| QueryForms.AlnumUntouched | app/forms/forecast_query_form.rb:9-10 | strip and collapse leave a letters-and-digits address alone |
| QueryForms.LongAddress | app/forms/forecast_query_form.rb:11 | an address of ASCII letters and digits longer than 255 characters is cut to its first 252 characters followed by "..." |
| QueryForms.TrailingPunctuationLeavesSpace | app/forms/forecast_query_form.rb:9-12 | characters removed after the truncation leave a trailing space behind |
| QueryForms.PunctuatedUntouched | app/forms/forecast_query_form.rb:9-10 | strip and collapse keep such trailing punctuation |
| Presenters.AttributeJson | app/presenters/forecast_presenter.rb:11-13 | a missing attribute renders as null and a present one as its string |
| Presenters.AsJson | app/presenters/forecast_presenter.rb:6-20 | the document is a hash with exactly the keys data and meta |
| Presenters.DataType | app/presenters/forecast_presenter.rb:8-15 | data holds type "forecast" and the attributes |
| Presenters.Attributes | app/presenters/forecast_presenter.rb:10-14 | the attributes are exactly the three temperatures of the forecast |
| Presenters.MetaCached | app/presenters/forecast_presenter.rb:16-18 | meta holds the cached flag and nothing else |
| Presenters.OnlyTemperaturesShown | app/presenters/forecast_presenter.rb:6-20 | two results with the same temperatures and flag render identically, whatever their conditions and time |
| Clients.RequestFor | app/services/clients/base_client.rb:39-45 | the request carries the downcased verb, the URL, the params, the body and the headers |
| Clients.Connection.RunRequest | app/services/clients/base_client.rb:40 | one request is appended to the log, and the answer is the connection's answer to it |
| Clients.ErrorClassForStatus | app/services/clients/base_client.rb:84-95 | InvalidInputError exactly for 400, NotFoundError for 404, ValidationError for 422, ExternalApiError for every other status, with the table's prefixes "Bad Request", "Resource Not Found" and "Unprocessable Entity" for those three |
| Clients.ErrorPrefixes | app/services/clients/base_client.rb:84-95 | the whole table: class and prefix for 400, 401, 403, 404, 422, 429, 5xx and every other status |
| Clients.ExtractErrorMessage | app/services/clients/base_client.rb:97-102 | a hash gives its message when truthy, and when message, error_message and error are all nil or false, the `to_s` of a non-nil errors; a string under 200 characters is itself; anything else gives nothing |
| Clients.ExtractFromHash | app/services/clients/base_client.rb:99 | message, error_message, error and errors are tried in that order, each value rendered with `to_s`; nothing exactly when all four are falsy and errors is nil; an errors of false gives "false" |
| Clients.ResponseMessage | app/services/clients/base_client.rb:71 | without an extracted message the text is "API request failed" |
| Clients.FullMessage | app/services/clients/base_client.rb:73 | the message is exactly "<prefix>: <message> (HTTP Status: <status>)": it starts with the prefix, ": " and the message, ends with the status suffix, and is as long as the two together |
| Clients.BuildErrorFromResponse | app/services/clients/base_client.rb:68-82 | raises ArgumentError exactly for 400 and 422; otherwise NotFoundError exactly for 404, else ExternalApiError, with the status as both codes, the body and the service name |
| Clients.ErrorMessageNamesStatus | app/services/clients/base_client.rb:73-81 | the built error's message ends with, and so contains, the HTTP Status segment |
| Clients.UnexpectedError | app/services/clients/base_client.rb:142-149 | an ApplicationError passes through unchanged; anything else becomes an ApplicationError naming the stage, with status 500 and the original backtrace |
| Clients.NetworkFailureError | app/services/clients/base_client.rb:116-123 | a NetworkError of the service, prefixed "Network error: ", that keeps the cause |
| Clients.QuotedText | app/services/clients/base_client.rb:28 | the text between the first pair of quotes of the parser's message |
| Clients.JsonParsingError | app/services/clients/base_client.rb:133-140 | an ExternalApiError, status 503, with the body "Invalid JSON: " and the text cut to 100 characters |
| Clients.SuccessfulResponse | app/services/clients/base_client.rb:52-60 | a Failure with the hook's error when it finds one, the body as data otherwise |
| Clients.SuccessOutcome | app/services/clients/base_client.rb:20-21 | a 2xx response gives the hook's verdict; with the base hook always a Success of the body |
| Clients.ErrorResponseOutcome | app/services/clients/base_client.rb:62-82 | another status except 400 and 422 gives a Failure carrying the status, body and service name |
| Clients.KeywordStatusesOutcome | app/services/clients/base_client.rb:29-30 | 400 and 422 end as ApplicationError "Unexpected error during HTTP Request Execution: unknown keywords: :service_name, :response_body" |
| Clients.NetworkOutcome | app/services/clients/base_client.rb:22-23 | a timeout or refused connection gives a NetworkError of the service with status 503 |
| Clients.NoDoubleWrap | app/services/clients/base_client.rb:143 | an ApplicationError raised during the request is returned as it is |
| Clients.UnexpectedOutcome | app/services/clients/base_client.rb:28-30 | any other exception gives the ApplicationError naming the request stage, with its message and backtrace |
| Clients.Outcome | app/services/clients/base_client.rb:19-30 | `make_request` raises only for a Faraday client error carrying a response; a Success only comes from a 2xx response and holds its body |
| Clients.OutcomeRaises | app/services/clients/base_client.rb:24-25 | `make_request` raises exactly for a Faraday client error carrying a 400 or 422 response, and then raises ArgumentError |
| Clients.ParseFailureOutcome | app/services/clients/base_client.rb:26-27 | a parse failure quoting its text gives an ExternalApiError whose body is that text |
| Clients.DemodulizeSuffix | app/services/clients/base_client.rb:15 | `demodulize` returns a suffix of the constant path |
| Clients.DropClientSuffix | app/services/clients/base_client.rb:15 | a trailing "Client" is removed, once |
| Clients.DemodulizeLast | app/services/clients/base_client.rb:15 | after any module path, the class name alone remains |
| Clients.DefaultServiceNameOf | app/services/clients/base_client.rb:15 | the default service name is the class name without its module path and its Client suffix |
| Clients.BaseClientServiceName | app/services/clients/base_client.rb:15 | Clients::BaseClient is called "Base" by default |
| Clients.CensusClientServiceName | app/services/clients/base_client.rb:15 | the name derived for Clients::Geocoders::CensusClient is "Census"; it is used only when nil is passed explicitly, since the constructor's default is "CensusGeocoder" |
| Clients.FilteredMembers | app/services/clients/base_client.rb:177-184 | a filtered hash keeps exactly the keys of the original, each once |
| Clients.FilterSensitiveData | app/services/clients/base_client.rb:166-188 | the loop builds the same value as the recursive definition |
| Clients.FilterHash | app/services/clients/base_client.rb:177-184 | the `each_with_object` loop over the pairs builds the filtered hash of the recursive definition |
| Clients.FilteredLookup | app/services/clients/base_client.rb:178-183 | a sensitive key maps to "[REDACTED]" and every other key to its filtered value |
| Clients.FilteredHash | app/services/clients/base_client.rb:177-184 | a filtered hash has the same keys; every sensitive top-level key maps to "[REDACTED]" and every other key to its filtered value; arrays are not traversed, so a secret inside an array stays in clear |
| Clients.FilteredUntouched | app/services/clients/base_client.rb:168-169 | nil, numbers, booleans and arrays come back unchanged |
| Clients.FilteredString | app/services/clients/base_client.rb:170-176 | a string that does not parse comes back unchanged; one that parses is filtered as its parse |
| Clients.RedactionExample | app/services/clients/base_client.rb:166-188 | api_key and appid are redacted and safe is kept |
| Clients.FetchFromResponse | app/services/clients/base_client.rb:190-192 | the value under the key, or nil when it is missing |
| Clients.BaseClient.constructor | app/services/clients/base_client.rb:12-16 | a given service name is kept, even an empty one; nil gives the name derived from the class |
| Clients.BaseClient.MakeRequest | app/services/clients/base_client.rb:20-31 | exactly one request is sent, with no retry, and the result is the classification of its outcome |
| CacheStores.Live | app/services/clients/geocoders/google_client.rb:62-65 | a read finds a value exactly when the key is present and not yet expired |
| CacheStores.Written | app/services/clients/geocoders/google_client.rb:36 | a write sets the key with its expiry and leaves every other key unchanged |
| CacheStores.ReadAfterWrite | app/services/clients/geocoders/google_client.rb:36 | a written value is read back until its time to live has passed |
| CacheStores.ExpiredAfterTtl | app/services/clients/geocoders/google_client.rb:6 | after the time to live the value is gone |
| CacheStores.WriteOtherKey | app/services/clients/geocoders/google_client.rb:36 | a write does not change what another key reads |
| CacheStores.GeocodeKey | app/services/clients/geocoders/google_client.rb:67-69 | the key starts with its namespace prefix |
| CacheStores.GeocodeKeyIgnoresCase | app/services/clients/geocoders/google_client.rb:68 | addresses that differ only in letter case share a key |
| CacheStores.GeocodeKeyIgnoresPadding | app/services/clients/geocoders/google_client.rb:68 | surrounding whitespace does not change the key |
| CacheStores.NamespacesDisjoint | app/services/weather/forecast_service.rb:7 | Google, Census and forecast keys never coincide |
| CacheStores.WrittenWellTyped | app/services/weather/forecast_service.rb:10 | writing location data under a geocode key, or a forecast under a forecast key, keeps every entry readable as its kind |
| CacheStores.CacheStore.Read | app/services/clients/geocoders/google_client.rb:63 | the value read is the live entry |
| CacheStores.CacheStore.Write | app/services/clients/geocoders/google_client.rb:36 | the entries become the written map; the clock does not move |
| GeocodeResults.NoMatch | app/services/clients/geocoders/google_client.rb:39 | a NotFoundError, status 404, naming the address |
| GeocodeResults.ToLocation | app/services/clients/geocoders/google_client.rb:37 | location data becomes a Location; failures and exceptions pass through |
| GeocodeResults.BlankAddress | app/services/clients/geocoders/google_client.rb:22 | an InvalidInputError "Address cannot be blank" with status 400 |
| GoogleGeocoders.CacheKey | app/services/clients/geocoders/google_client.rb:67-69 | a key in the Google namespace, never a forecast key |
| GoogleGeocoders.FindComponent | app/services/clients/geocoders/google_client.rb:83-86 | the index of the first component whose types include the name; nothing when no component does |
| GoogleGeocoders.ComponentNameFirst | app/services/clients/geocoders/google_client.rb:83-86 | the attribute is the name of the first matching component, nil when none matches |
| GoogleGeocoders.ScanComponents | app/services/clients/geocoders/google_client.rb:75-78 | the unused component pass yields at most one entry per component, raising where Ruby raises |
| GoogleGeocoders.ParsedFields | app/services/clients/geocoders/google_client.rb:80-88 | the seven attributes come from geometry, the components and formatted_address |
| GoogleGeocoders.ParseResponse | app/services/clients/geocoders/google_client.rb:70-88 | a location is parsed only from a hash whose status is "OK"; a hash with any other status gives nil |
| GoogleGeocoders.ParseNoMatch | app/services/clients/geocoders/google_client.rb:72 | a status other than OK, or no results, gives no location |
| GoogleGeocoders.ParseFirstResult | app/services/clients/geocoders/google_client.rb:74-88 | otherwise the first result is parsed, and what it raises escapes |
| GoogleGeocoders.Resolve | app/services/clients/geocoders/google_client.rb:33-43 | a failed request passes its error on verbatim; an exception propagates; after a successful request, a parsed location gives Success of it, nil gives NotFoundError naming the address, and a raising parse propagates |
| GoogleGeocoders.ResolveNoMatch | app/services/clients/geocoders/google_client.rb:38-39 | a body without a match gives the NotFoundError naming the address |
| GoogleGeocoders.GoogleClient.constructor | app/services/clients/geocoders/google_client.rb:16-19 | the credentials key and the name GoogleGeocoder, whatever the caller passes |
| GoogleGeocoders.GoogleClient.Answer | app/services/clients/geocoders/google_client.rb:21-44 | a blank address fails at once; a miss gives the location of the fetched data |
| GoogleGeocoders.GoogleClient.Geocode | app/services/clients/geocoders/google_client.rb:21-44 | no request for a blank address or a cache hit; one request otherwise, and only a parsed location is cached for 24 hours |
| GoogleGeocoders.GoogleClient.BlankAddressFails | app/services/clients/geocoders/google_client.rb:22 | a blank address fails with InvalidInputError and is not a miss |
| GoogleGeocoders.GoogleClient.CacheHit | app/services/clients/geocoders/google_client.rb:24-25 | a live entry is served as a Location without a request |
| GoogleGeocoders.GoogleClient.ReadThrough | app/services/clients/geocoders/google_client.rb:33-37 | within 24 hours of a successful lookup, the same address is answered identically from the cache |
| GoogleGeocoders.GoogleClient.NothingCachedOnFailure | app/services/clients/geocoders/google_client.rb:38-43 | a failure leaves the cache unchanged |
| CensusGeocoders.CacheKey | app/services/clients/geocoders/census_client.rb:13 | a key in the Census namespace, never a forecast key |
| CensusGeocoders.KeysDisjoint | app/services/clients/geocoders/census_client.rb:13 | a Census key never equals a Google key |
| CensusGeocoders.ParseResponse | app/services/clients/geocoders/census_client.rb:45-57 | no first address match gives nothing; a match gives country US |
| CensusGeocoders.ParsedMatch | app/services/clients/geocoders/census_client.rb:49-56 | y is the latitude, x the longitude; zip, city and state come from the address components |
| CensusGeocoders.StringResultRaises | app/services/clients/geocoders/census_client.rb:46 | a string `result` makes `dig` raise TypeError |
| CensusGeocoders.Resolve | app/services/clients/geocoders/census_client.rb:32-40 | a failure is propagated verbatim; an exception propagates; after a successful request, a parsed location gives Success of it, nil gives NotFoundError naming the address, and a raising parse propagates |
| CensusGeocoders.ResolveNoMatch | app/services/clients/geocoders/census_client.rb:35-36 | no match gives the NotFoundError naming the address |
| CensusGeocoders.CensusClient.constructor | app/services/clients/geocoders/census_client.rb:6-8 | CensusGeocoder by default; the caller's name wins, and an explicit nil gives "Census" |
| CensusGeocoders.CensusClient.Answer | app/services/clients/geocoders/census_client.rb:10-41 | a blank address fails at once; a miss gives the location of the fetched data |
| CensusGeocoders.CensusClient.Geocode | app/services/clients/geocoders/census_client.rb:10-41 | no request for a blank address or a hit; one request otherwise, and only a parsed location is cached for 24 hours |
| CensusGeocoders.CensusClient.BlankAddressFails | app/services/clients/geocoders/census_client.rb:11 | a blank address fails with InvalidInputError and is not a miss |
| CensusGeocoders.CensusClient.CacheHit | app/services/clients/geocoders/census_client.rb:16-18 | a live entry is served without a request |
| CensusGeocoders.CensusClient.ReadThrough | app/services/clients/geocoders/census_client.rb:30-34 | within 24 hours of a successful lookup, the same address is answered from the cache |
| CensusGeocoders.CensusClient.StringResultEscapes | app/services/clients/geocoders/census_client.rb:31-34 | a malformed 2xx body makes `geocode` raise TypeError |
| CensusGeocoders.CensusClient.NothingCachedOnFailure | app/services/clients/geocoders/census_client.rb:35-40 | a failure leaves the cache unchanged |
| OpenWeatherMap.UnitSymbol | app/services/clients/weather/open_weather_map_client.rb:68-70 | C for metric, F otherwise, always an accepted unit |
| OpenWeatherMap.MissingLocation | app/services/clients/weather/open_weather_map_client.rb:17-20 | an InvalidInputError on the field location, status 400 |
| OpenWeatherMap.Coordinates | app/services/clients/weather/open_weather_map_client.rb:16 | both coordinates exactly when the location is present and both cast to Floats; raises only when a cast raises |
| OpenWeatherMap.FirstWeather | app/services/clients/weather/open_weather_map_client.rb:43 | the first weather entry, or an empty hash, never nil |
| OpenWeatherMap.Rendered | app/services/clients/weather/open_weather_map_client.rb:45-56 | a rendered temperature is never blank and holds the degree sign |
| OpenWeatherMap.BuildForecast | app/services/clients/weather/open_weather_map_client.rb:41-66 | returns only for a hash with dt, and then always a valid Forecast: the ValidationError branch is unreachable |
| OpenWeatherMap.WellFormedResponse | app/services/clients/weather/open_weather_map_client.rb:41-59 | a complete body gives the rendered temperatures, the description and the time |
| OpenWeatherMap.MissingReadingRaises | app/services/clients/weather/open_weather_map_client.rb:46-56 | a hash `main` without temp, temp_max or temp_min makes the build raise; a missing temp raises KeyError "key not found: :temp" when the weather entry is readable |
| OpenWeatherMap.MissingDescriptionRaises | app/services/clients/weather/open_weather_map_client.rb:57 | a first weather entry without description makes the build raise |
| OpenWeatherMap.MissingTimeRaises | app/services/clients/weather/open_weather_map_client.rb:58 | a body without dt raises |
| OpenWeatherMap.Resolve | app/services/clients/weather/open_weather_map_client.rb:34-36 | a failure is returned verbatim; a body goes to build_forecast |
| OpenWeatherMap.OpenWeatherMapClient.constructor | app/services/clients/weather/open_weather_map_client.rb:9-13 | the credentials key, the name OpenWeatherMapClient and metric units |
| OpenWeatherMap.OpenWeatherMapClient.Requests | app/services/clients/weather/open_weather_map_client.rb:16-32 | at most one request, made exactly when both coordinates are present |
| OpenWeatherMap.OpenWeatherMapClient.Answer | app/services/clients/weather/open_weather_map_client.rb:15-37 | a missing location fails without a request; a raising cast escapes; every Forecast returned is valid |
| OpenWeatherMap.OpenWeatherMapClient.Forecast | app/services/clients/weather/open_weather_map_client.rb:15-37 | the result is the answer, and the log grows by exactly its requests |
| OpenWeatherMap.OpenWeatherMapClient.SuccessfulForecast | app/services/clients/weather/open_weather_map_client.rb:34-36 | a 2xx reply gives build_forecast of its body |
| ForecastServices.ForecastKey | app/services/weather/forecast_service.rb:7 | a forecast-namespace key made of the zip code |
| ForecastServices.ForecastKeyByZip | app/services/weather/forecast_service.rb:7 | two locations share an entry exactly when their zip codes agree |
| ForecastServices.UnexpectedFailure | app/services/weather/forecast_service.rb:19-22 | an ApplicationError "An unexpected error occurred", status 500 |
| ForecastServices.Answer | app/services/weather/forecast_service.rb:3-23 | raises NameError exactly for a nil location; on a hit, the cached forecast with `cached` true; on a miss, the client's forecast with `cached` false, a client failure verbatim, or the generic failure for a client exception |
| ForecastServices.Call | app/services/weather/forecast_service.rb:3-23 | the answer, with only a fetched forecast written for 30 minutes and requests only on a miss |
| ForecastServices.SecondCallCached | app/services/weather/forecast_service.rb:10-17 | within 30 minutes, a call for the same zip code returns the fetched forecast with `cached` true |
| ForecastServices.NothingCachedOnFailure | app/services/weather/forecast_service.rb:13 | a failed or raising client call leaves the cache unchanged |
| ForecastServices.ServedForecastsValid | app/services/weather/forecast_service.rb:12-17 | a freshly fetched forecast is always valid |
| GeocodeServices.Geocoder.Geocode | app/services/geocoding/geocode_service.rb:7 | the chosen client's geocode, with its cache and request effects |
| GeocodeServices.BlankFailure | app/services/geocoding/geocode_service.rb:4 | an InvalidInputError "Address cannot be blank." with status 400 |
| GeocodeServices.RescuedFailure | app/services/geocoding/geocode_service.rb:8-11 | an ApplicationError with status 500 whose message appends the exception's |
| GeocodeServices.Answer | app/services/geocoding/geocode_service.rb:3-12 | never raises: blank fails first; otherwise the client's result, or the rescued failure |
| GeocodeServices.Call | app/services/geocoding/geocode_service.rb:3-12 | the answer, with no request for a blank address |
| GeocodeServices.BlankCheckedByService | app/services/geocoding/geocode_service.rb:4 | a blank address never reaches the client's own check |
| GeocodeServices.CensusMalformedBody | app/services/geocoding/geocode_service.rb:6-11 | a malformed Census body ends as ApplicationError "An unexpected error occurred: String does not have #dig method" |

## Left out

- Logging (`log_communication`, `log_error`, the Rails logger) is not modelled. It has no effect on results.
- `default_http_client` is not modelled: the Faraday setup, timeouts and middleware. The connection is always passed in.
- The default arguments `client: GoogleClient.new` and `OpenWeatherMapClient.new` are not modelled. The services take the client explicitly.
- Rails credentials are not modelled. The key is a constructor parameter.
- `parse_json_string` and `cache_store` in base_client.rb are not modelled. No core path calls the first, and the second is the injected `CacheStore`.
- `GoogleClient`'s `STATUS_ERRORS` and `process_http_response` are not modelled. Nothing calls them.
- The `JSON::ParserError` rescue of Census `parse_response` is not modelled. `dig` and `[]` never raise it.
- Exceptions raised inside the cache store itself are not modelled. Rails.cache is an in-memory map here.
- Controllers, the JavaScript controller, the drafts under app/lib/clients and `concerns/common.rb` are not part of this model.
- Symbol and string hash keys are identified. Bodies are parsed with symbolized names, and the code mixes `:key` and `"key"` lookups. The consequence is not modelled: through the default connection, the string-keyed lookups of both geocoders' `parse_response` find nil. So `GoogleClient#geocode` and `CensusClient#geocode` end in NotFoundError for every hash body. `GoogleGeocoders.ParseFirstResult`, `CensusGeocoders.ParsedMatch` and both `ReadThrough` lemmas describe string-keyed bodies, which only a connection without that middleware delivers.
- `Text.Downcase` only folds ASCII letters, whereas Ruby's `downcase` folds all of Unicode. Cache keys for non-ASCII addresses may differ from Ruby's.
- Time, digests, `JSON.parse`, Float rendering and `inspect` are parameters. Floats are identified with their printed text.
- Backtraces of exceptions raised inside the modelled code are absent (`None`). Only a given exception's backtrace is carried.
- Ruby inheritance is composition: each client holds a `BaseClient`. The service name the Google and OpenWeatherMap initializers assign after `super` is passed to the base constructor instead.
- Locations, temperatures and forecasts are values, because they are never changed after they are built. `Locations.Location.SetZipCode` returns the updated location rather than updating it in place.
