/**
 * `ForecastPresenter`: the JSON document the API returns for a forecast result.
 */
module Presenters {
  import opened Wrappers
  import opened JsonValue
  import opened Forecasts

  /** The hash `ForecastService` returns as data: the forecast and whether it came from the cache. */
  datatype ForecastResult = ForecastResult(forecast: Forecast, cached: bool)

  /** A string attribute as JSON: nil or the string. */
  function AttributeJson(value: Option<string>): (j: Json)
    ensures value.None? ==> j == JNull
    ensures value.Some? ==> j == JStr(value.value)
  {
    if value.None? then JNull else JStr(value.value)
  }

  /** The `attributes` hash: the three temperatures of the forecast. */
  function AttributesJson(f: Forecast): Json
  {
    JObj([("current_temperature", AttributeJson(f.currentTemperature)),
          ("high_temperature", AttributeJson(f.highTemperature)),
          ("low_temperature", AttributeJson(f.lowTemperature))])
  }

  /** The `data` hash: the resource type and its attributes. */
  function DataJson(f: Forecast): Json
  {
    JObj([("type", JStr("forecast")), ("attributes", AttributesJson(f))])
  }

  /** `as_json`: `data` and `meta`, and nothing else, at the top level. */
  function AsJson(result: ForecastResult): (j: Json)
    ensures j.JObj? && UniqueKeys(j.members) && KeySet(j.members) == {"data", "meta"}
  {
    var ms := [("data", DataJson(result.forecast)), ("meta", JObj([("cached", JBool(result.cached))]))];
    KeySetSnoc([], "data", DataJson(result.forecast));
    assert ms == [("data", DataJson(result.forecast))] + [("meta", JObj([("cached", JBool(result.cached))]))];
    KeySetSnoc([("data", DataJson(result.forecast))], "meta", JObj([("cached", JBool(result.cached))]));
    JObj(ms)
  }

  /** `data.type` is always "forecast", and `data.attributes` is the attributes hash. */
  lemma DataType(result: ForecastResult)
    ensures Lookup(AsJson(result).members, "data") == Some(DataJson(result.forecast))
    ensures Lookup(DataJson(result.forecast).members, "type") == Some(JStr("forecast"))
    ensures Lookup(DataJson(result.forecast).members, "attributes") == Some(AttributesJson(result.forecast))
  {
  }

  /** `attributes` holds exactly the three temperatures, copied from the forecast. */
  lemma Attributes(f: Forecast)
    ensures KeySet(AttributesJson(f).members) == {"current_temperature", "high_temperature", "low_temperature"}
    ensures Lookup(AttributesJson(f).members, "current_temperature") == Some(AttributeJson(f.currentTemperature))
    ensures Lookup(AttributesJson(f).members, "high_temperature") == Some(AttributeJson(f.highTemperature))
    ensures Lookup(AttributesJson(f).members, "low_temperature") == Some(AttributeJson(f.lowTemperature))
  {
    var a := ("current_temperature", AttributeJson(f.currentTemperature));
    var b := ("high_temperature", AttributeJson(f.highTemperature));
    var c := ("low_temperature", AttributeJson(f.lowTemperature));
    KeySetSnoc([], a.0, a.1);
    assert [a] + [b] == [a, b];
    KeySetSnoc([a], b.0, b.1);
    assert [a, b] + [c] == [a, b, c];
    KeySetSnoc([a, b], c.0, c.1);
    assert [a, b, c][..2] == [a, b] && [a, b][..1] == [a];
    assert Lookup([a, b], a.0) == Lookup([a], a.0) == Some(a.1);
    assert Lookup([a, b, c], a.0) == Lookup([a, b], a.0);
  }

  /** `meta.cached` is the flag of the result. */
  lemma MetaCached(result: ForecastResult)
    ensures Lookup(AsJson(result).members, "meta") == Some(JObj([("cached", JBool(result.cached))]))
  {
  }

  /** Conditions and the fetch time never appear in the document. */
  lemma OnlyTemperaturesShown(r1: ForecastResult, r2: ForecastResult)
    requires r1.cached == r2.cached
    requires r1.forecast.currentTemperature == r2.forecast.currentTemperature
    requires r1.forecast.highTemperature == r2.forecast.highTemperature
    requires r1.forecast.lowTemperature == r2.forecast.lowTemperature
    ensures AsJson(r1) == AsJson(r2)
  {
  }
}
