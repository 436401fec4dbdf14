/**
 * The `Forecast` model: four string attributes and a time, valid when the current
 * temperature is present.
 */
module Forecasts {
  import opened Wrappers
  import opened Text
  import opened JsonValue
  import opened Runtime
  import opened RubyJson

  /** A Forecast with its attributes already cast: strings for the temperatures and conditions, seconds for the time. */
  datatype Forecast = Forecast(currentTemperature: Option<string>, highTemperature: Option<string>,
                               lowTemperature: Option<string>, conditions: Option<string>,
                               fetchedAt: Option<Number>)
  {
    /** `valid?`: the presence validation on the current temperature. */
    predicate IsValid()
    {
      !IsBlank(currentTemperature)
    }

    /** `errors` after validation: the attribute and the message of each failed validation. */
    function Errors(): (es: seq<(string, string)>)
      ensures es == [] <==> IsValid()
      ensures es != [] ==> es == [("current_temperature", "can't be blank")]
    {
      if IsValid() then [] else [("current_temperature", "can't be blank")]
    }

    /** `errors.full_messages`: the humanised attribute name before each message. */
    function FullMessages(): (ms: seq<string>)
      ensures |ms| == |Errors()|
      ensures ms != [] ==> ms == ["Current temperature can't be blank"]
    {
      if IsValid() then [] else ["Current temperature can't be blank"]
    }
  }

  /** `Forecast.new(...)`: the string attributes go through the string cast. */
  function NewForecast(current: Json, high: Json, low: Json, conditions: Json, fetchedAt: Option<Number>,
                       rt: Foreign): (f: Forecast)
    ensures f.currentTemperature == StringCast(current, rt) && f.highTemperature == StringCast(high, rt)
    ensures f.lowTemperature == StringCast(low, rt) && f.conditions == StringCast(conditions, rt)
    ensures f.fetchedAt == fetchedAt
  {
    Forecast(StringCast(current, rt), StringCast(high, rt), StringCast(low, rt), StringCast(conditions, rt), fetchedAt)
  }

  /** Validity depends on the current temperature alone. */
  lemma ValidityIgnoresOtherFields(f: Forecast, g: Forecast)
    requires f.currentTemperature == g.currentTemperature
    ensures f.IsValid() == g.IsValid()
    ensures f.Errors() == g.Errors()
  {
  }

  /** A missing current temperature fails with "can't be blank" on that attribute. */
  lemma MissingCurrentTemperature(f: Forecast)
    requires f.currentTemperature.None?
    ensures !f.IsValid()
    ensures ("current_temperature", "can't be blank") in f.Errors()
  {
  }

  /** A current temperature made only of whitespace is not present either. */
  lemma WhitespaceCurrentTemperature(f: Forecast, ws: string)
    requires forall i :: 0 <= i < |ws| ==> IsUnicodeSpace(ws[i])
    requires f.currentTemperature == Some(ws)
    ensures !f.IsValid() && f.Errors() == [("current_temperature", "can't be blank")]
  {
  }

  /** A current temperature with a visible character makes the Forecast valid. */
  lemma PresentCurrentTemperature(f: Forecast, i: nat)
    requires f.currentTemperature.Some? && i < |f.currentTemperature.value|
    requires !IsUnicodeSpace(f.currentTemperature.value[i])
    ensures f.IsValid() && f.Errors() == [] && f.FullMessages() == []
  {
  }
}
