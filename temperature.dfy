/**
 * The `Temperature` model: a float value and a string unit, valid when the value is
 * present and the unit is C, F or K, rendered as "<value>° <unit>".
 */
module Temperatures {
  import opened Wrappers
  import opened Text
  import opened JsonValue
  import opened Errors
  import opened Runtime
  import opened RubyJson

  /** The units the inclusion validation accepts. */
  const Units: seq<string> := ["C", "F", "K"]

  /** The degree sign and the space `to_s` puts between the value and the unit. */
  const DegreeSeparator: string := "\U{00B0} "

  /**
   * A Temperature holds what was assigned; the attribute casts run when an attribute is
   * read, so reading the value of a non-empty array or hash raises there.
   */
  datatype Temperature = Temperature(value: Json, unit: Json)
  {
    /** The `value` attribute: the float cast of the assigned value. */
    function Value(rt: Foreign): Raising<Option<string>>
    {
      FloatCast(value, rt)
    }

    /** The `unit` attribute: the string cast of the assigned unit. */
    function Unit(rt: Foreign): Option<string>
    {
      StringCast(unit, rt)
    }

    /** `valid?`: the value is present (a Float is never blank) and the unit is one of C, F and K. */
    function IsValid(rt: Foreign): (r: Raising<bool>)
      ensures r.Returns? <==> Value(rt).Returns?
      ensures r.Returns? ==> (r.value <==> Value(rt).value.Some? && Unit(rt).Some? && Unit(rt).value in Units)
    {
      var v :- Value(rt);
      Returns(v.Some? && Unit(rt).Some? && Unit(rt).value in Units)
    }

    /** `to_s`: the value, the degree sign, a space and the unit; nil renders as "". */
    function ToS(rt: Foreign): (r: Raising<string>)
      ensures r.Returns? <==> Value(rt).Returns?
      ensures r.Returns? ==> r.value == Value(rt).value.GetOr("") + DegreeSeparator + Unit(rt).GetOr("")
    {
      var v :- Value(rt);
      Returns(v.GetOr("") + DegreeSeparator + Unit(rt).GetOr(""))
    }
  }

  /** `to_s` has no validity guard: whatever the value and unit, it renders a non-blank string holding the degree sign. */
  lemma ToSNeverBlank(t: Temperature, rt: Foreign)
    requires t.ToS(rt).Returns?
    ensures Contains(t.ToS(rt).value, DegreeSeparator)
    ensures !IsBlank(Some(t.ToS(rt).value))
  {
    var v := t.Value(rt).value.GetOr("");
    var u := t.Unit(rt).GetOr("");
    var s := t.ToS(rt).value;
    assert s == v + DegreeSeparator + u;
    assert OccursAt(s, DegreeSeparator, |v|);
    assert s[|v|] == '\U{00B0}' && !IsUnicodeSpace(s[|v|]);
  }

  /** A temperature without a unit, or without a value, is invalid. */
  lemma MissingPartInvalid(value: Json, unit: Json, rt: Foreign)
    requires FloatCast(value, rt).Returns?
    ensures Temperature(value, JNull).IsValid(rt) == Returns(false)
    ensures Temperature(JNull, unit).IsValid(rt) == Returns(false)
  {
  }

  /** A unit outside C, F and K makes the temperature invalid whatever its value. */
  lemma OtherUnitInvalid(value: Json, unit: string, rt: Foreign)
    requires FloatCast(value, rt).Returns?
    requires unit !in Units
    ensures Temperature(value, JStr(unit)).IsValid(rt) == Returns(false)
  {
  }

  /** A present value with a unit among C, F and K is valid. */
  lemma ValidTemperature(value: Json, unit: string, rt: Foreign)
    requires FloatCast(value, rt).Returns? && FloatCast(value, rt).value.Some?
    requires unit in Units
    ensures Temperature(value, JStr(unit)).IsValid(rt) == Returns(true)
  {
  }

  /** The example temperature 37.0 in Celsius is valid and renders as "37.0° C". */
  lemma TemperatureExample(rt: Foreign)
    ensures Temperature(JNum(Float("37.0")), JStr("C")).IsValid(rt) == Returns(true)
    ensures Temperature(JNum(Float("37.0")), JStr("C")).ToS(rt) == Returns("37.0\U{00B0} C")
  {
    ValidTemperature(JNum(Float("37.0")), "C", rt);
    assert "37.0" + DegreeSeparator + "C" == "37.0\U{00B0} C";
  }
}
