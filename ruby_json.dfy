/**
 * The Ruby methods the clients and models call on JSON values (`[]`, `fetch`, `dig`,
 * `first`, `empty?`, `include?`, iteration, `to_s`) and the ActiveModel attribute casts,
 * each with the exception Ruby raises when the receiver does not support it.
 */
module RubyJson {
  import opened Wrappers
  import opened Text
  import opened JsonValue
  import opened Errors
  import opened Runtime

  /** The Ruby class of a value. */
  function ClassName(j: Json): string
  {
    match j
    case JNull => "NilClass"
    case JBool(b) => if b then "TrueClass" else "FalseClass"
    case JNum(n) => if n.Int? then "Integer" else "Float"
    case JStr(_) => "String"
    case JArr(_) => "Array"
    case JObj(_) => "Hash"
  }

  /** How Ruby names a receiver in a NoMethodError. */
  function Describe(j: Json): string
  {
    match j
    case JNull => "nil"
    case JBool(b) => if b then "true" else "false"
    case _ => "an instance of " + ClassName(j)
  }

  /** The NoMethodError raised when `recv` has no method `name`. */
  function NoMethod<T>(name: string, recv: Json): Raising<T>
  {
    Raise("NoMethodError", "undefined method '" + name + "' for " + Describe(recv))
  }

  /** `recv[key]` with a String argument. */
  function Index(recv: Json, key: string): (r: Raising<Json>)
    ensures recv.JObj? ==> r == Returns(Lookup(recv.members, key).GetOr(JNull))
    ensures recv.JStr? || recv.JObj? <==> r.Returns?
  {
    match recv
    case JObj(ms) => Returns(Lookup(ms, key).GetOr(JNull))
    case JStr(s) => Returns(if Contains(s, key) then JStr(key) else JNull)
    case JArr(_) => Raise("TypeError", "no implicit conversion of String into Integer")
    case JNum(Int(_)) => Raise("TypeError", "no implicit conversion of String into Integer")
    case _ => NoMethod("[]", recv)
  }

  /** `recv.fetch(:key)` and `recv.fetch(:key, default)`. */
  function Fetch(recv: Json, key: string, default: Option<Json>): (r: Raising<Json>)
    ensures r.Returns? <==> recv.JObj? && (key in KeySet(recv.members) || default.Some?)
    ensures r.Returns? ==> r.value == Lookup(recv.members, key).GetOr(default.GetOr(JNull))
  {
    match recv
    case JObj(ms) =>
      if key in KeySet(ms) then Returns(Lookup(ms, key).value)
      else if default.Some? then Returns(default.value)
      else Raise("KeyError", "key not found: :" + key)
    case JArr(_) => Raise("TypeError", "no implicit conversion of Symbol into Integer")
    case _ => NoMethod("fetch", recv)
  }

  /** `recv.first`: an array's first element, a hash's first entry as a pair, a string's first character. */
  function First(recv: Json): (r: Raising<Json>)
    ensures recv.JArr? ==> r == Returns(if recv.elems == [] then JNull else recv.elems[0])
  {
    match recv
    case JArr(es) => Returns(if es == [] then JNull else es[0])
    case JObj(ms) => Returns(if ms == [] then JNull else JArr([JStr(ms[0].0), ms[0].1]))
    case JStr(s) => Returns(JStr(if s == [] then s else s[..1]))
    case _ => NoMethod("first", recv)
  }

  /** `recv.empty?`. */
  function IsEmpty(recv: Json): (r: Raising<bool>)
    ensures recv.JArr? ==> r == Returns(recv.elems == [])
  {
    match recv
    case JArr(es) => Returns(es == [])
    case JObj(ms) => Returns(ms == [])
    case JStr(s) => Returns(s == [])
    case _ => NoMethod("empty?", recv)
  }

  /** The values a block sees when `methodName` (an Enumerable method) iterates over `recv`. */
  function Elements(recv: Json, methodName: string): (r: Raising<seq<Json>>)
    ensures recv.JArr? ==> r == Returns(recv.elems)
  {
    match recv
    case JArr(es) => Returns(es)
    case JObj(ms) => Returns(seq(|ms|, i requires 0 <= i < |ms| => JArr([JStr(ms[i].0), ms[i].1])))
    case _ => NoMethod(methodName, recv)
  }

  /** `recv.include?(item)` with a String argument. */
  function Includes(recv: Json, item: string): (r: Raising<bool>)
    ensures recv.JArr? ==> r == Returns(JStr(item) in recv.elems)
  {
    match recv
    case JArr(es) => Returns(JStr(item) in es)
    case JStr(s) => Returns(Contains(s, item))
    case JObj(ms) => Returns(item in KeySet(ms))
    case _ => NoMethod("include?", recv)
  }

  /** An argument of `dig`: a String key or an Integer index. */
  datatype DigKey = Key(name: string) | At(index: int)

  /** `recv.dig(keys...)`: follow the keys while the values are non-nil. */
  function Dig(recv: Json, keys: seq<DigKey>): (r: Raising<Json>)
    requires keys != []
    decreases |keys|
  {
    var step :- DigStep(recv, keys[0]);
    if |keys| == 1 || step.JNull? then Returns(step)
    else if step.JObj? || step.JArr? then Dig(step, keys[1..])
    else Raise("TypeError", ClassName(step) + " does not have #dig method")
  }

  /** One step of `dig`, called on `recv` itself. */
  function DigStep(recv: Json, key: DigKey): (r: Raising<Json>)
    ensures recv.JObj? && key.Key? ==> r == Returns(Lookup(recv.members, key.name).GetOr(JNull))
  {
    match recv
    case JObj(ms) => Returns(if key.Key? then Lookup(ms, key.name).GetOr(JNull) else JNull)
    case JArr(es) =>
      if key.Key? then Raise("TypeError", "no implicit conversion of String into Integer")
      else
        var i := if key.index < 0 then key.index + |es| else key.index;
        Returns(if 0 <= i < |es| then es[i] else JNull)
    case _ => NoMethod("dig", recv)
  }

  /** `value.to_s`, which is also what string interpolation inserts. */
  function ToS(j: Json, rt: Foreign): string
  {
    match j
    case JNull => ""
    case JBool(b) => if b then "true" else "false"
    case JNum(Int(i)) => IntToString(i)
    case JNum(Float(t)) => t
    case JStr(s) => s
    case _ => rt.inspect(j)
  }

  /** The string attribute cast of ActiveModel: nil stays nil, true and false become "t" and "f". */
  function StringCast(j: Json, rt: Foreign): (r: Option<string>)
    ensures r.None? <==> j.JNull?
    ensures j.JStr? ==> r == Some(j.s)
  {
    match j
    case JNull => None
    case JBool(b) => Some(if b then "t" else "f")
    case _ => Some(ToS(j, rt))
  }

  /** The largest integer whose conversion to Float is exact. */
  const ExactFloatLimit: int := 0x20_0000_0000_0000

  /**
   * The float attribute cast of ActiveModel, giving the text `Float#to_s` prints: numbers
   * convert, true and false become 1.0 and 0.0, blank strings and empty collections become
   * nil, and a non-empty array or hash raises because it has no `to_f`.
   */
  function FloatCast(j: Json, rt: Foreign): (r: Raising<Option<string>>)
    ensures j.JNull? ==> r == Returns(None)
    ensures j.JNum? && j.n.Float? ==> r == Returns(Some(j.n.text))
    ensures r.Raises? <==> (j.JArr? && j.elems != []) || (j.JObj? && j.members != [])
  {
    match j
    case JNull => Returns(None)
    case JBool(b) => Returns(Some(if b then "1.0" else "0.0"))
    case JNum(Float(t)) => Returns(Some(t))
    case JNum(Int(i)) =>
      Returns(Some(if -ExactFloatLimit <= i <= ExactFloatLimit then IntToString(i) + ".0" else rt.largeIntToFloat(i)))
    case JStr(s) =>
      if IsBlank(Some(s)) then Returns(None)
      else if s == "Infinity" || s == "-Infinity" || s == "NaN" then Returns(Some(s))
      else Returns(Some(rt.stringToFloat(s)))
    case JArr(es) => if es == [] then Returns(None) else NoMethod("to_f", j)
    case JObj(ms) => if ms == [] then Returns(None) else NoMethod("to_f", j)
  }

  /** `Time.at(value)`: a number gives a time, identified here with its seconds since the epoch. */
  function TimeAt(j: Json): (r: Raising<Number>)
    ensures r.Returns? <==> j.JNum?
    ensures j.JNum? ==> r.value == j.n
  {
    match j
    case JNum(n) => Returns(n)
    case JNull => Raise("TypeError", "can't convert nil into an exact number")
    case JBool(b) => Raise("TypeError", "can't convert " + (if b then "true" else "false") + " into an exact number")
    case _ => Raise("TypeError", "can't convert " + ClassName(j) + " into an exact number")
  }
}
