/**
 * The library calls the core makes but does not define: SHA1 digests, `JSON.parse`,
 * `inspect` of arrays and hashes, and the conversions to Float. They are given to the
 * model as explicit functions.
 */
module Runtime {
  import opened Wrappers
  import opened JsonValue

  datatype Foreign = Foreign(
    /** `Digest::SHA1.hexdigest`. */
    sha1Hex: string -> string,
    /** `JSON.parse`: the parsed value, or None where it raises `JSON::ParserError`. */
    parseJson: string -> Option<Json>,
    /** `Array#to_s` and `Hash#to_s` (the same as `inspect`). */
    inspect: Json -> string,
    /** `String#to_f`, as `Float#to_s` prints the result. */
    stringToFloat: string -> string,
    /** `Integer#to_f` for an integer beyond 2**53 in size, as `Float#to_s` prints the result. */
    largeIntToFloat: int -> string)

  /**
   * The length of the longest string that a recursive walk over hashes meets: a string's
   * own length, the widest value of a hash, and 0 for everything else (arrays included,
   * as the redaction does not enter them).
   */
  function Width(j: Json): nat
    decreases j, 1
  {
    match j
    case JStr(s) => |s|
    case JObj(ms) => MembersWidth(ms, j)
    case _ => 0
  }

  function MembersWidth(ms: Members, ghost parent: Json): (w: nat)
    requires forall k :: 0 <= k < |ms| ==> ms[k].1 < parent
    ensures forall k :: 0 <= k < |ms| ==> Width(ms[k].1) <= w
    decreases parent, 0, |ms|
  {
    if ms == [] then 0
    else
      var last := Width(ms[|ms| - 1].1);
      var rest := MembersWidth(ms[..|ms| - 1], parent);
      assert forall k :: 0 <= k < |ms| - 1 ==> ms[k] == ms[..|ms| - 1][k];
      if last < rest then rest else last
  }

  /**
   * Every string inside a parsed document is shorter than the text it was parsed from
   * (it needs at least its two quotes there). `JSON.parse` has this property.
   */
  ghost predicate ShrinkingParser(rt: Foreign)
  {
    forall s :: rt.parseJson(s).Some? ==> Width(rt.parseJson(s).value) < |s|
  }
}
