/**
  `parse_bool`: turns the truthy and falsey spellings a string-only
  configuration source produces into real booleans, and passes every other
  value through untouched.
*/
module Coercion {
  import opened Python

  /** The spellings read as `True`. Because Python's `==` makes `1 == True`,
      the integer 1 is one of them. */
  const TrueForms: set<Value> := {VBool(true), VInt(1), VStr("1"), VStr("True"), VStr("true")}

  /** The spellings read as `False`, the integer 0 among them. */
  const FalseForms: set<Value> := {VBool(false), VInt(0), VStr("0"), VStr("False"), VStr("false")}

  /** `parse_bool(value)`: the chain of `==` tests of the source, in its order. */
  function ParseBool(v: Value): (r: Value)
    ensures r == VBool(true) <==> v in TrueForms
    ensures r == VBool(false) <==> v in FalseForms
    ensures v !in TrueForms && v !in FalseForms ==> r == v
  {
    if PyEq(v, VBool(true)) || PyEq(v, VStr("1")) || PyEq(v, VStr("True")) || PyEq(v, VStr("true")) then
      VBool(true)
    else if PyEq(v, VBool(false)) || PyEq(v, VStr("0")) || PyEq(v, VStr("False")) || PyEq(v, VStr("false")) then
      VBool(false)
    else
      v
  }

  /** The result is always a boolean or the input itself, so a second
      application changes nothing. */
  lemma ParseBoolIdempotent(v: Value)
    ensures ParseBool(v).VBool? || ParseBool(v) == v
    ensures ParseBool(ParseBool(v)) == ParseBool(v)
  {
  }

  /** Spellings that differ only in case, or other words for yes and no, are
      not recognised. */
  lemma ParseBoolIsCaseSensitive()
    ensures ParseBool(VStr("TRUE")) == VStr("TRUE")
    ensures ParseBool(VStr("yes")) == VStr("yes")
    ensures ParseBool(VInt(2)) == VInt(2)
    ensures ParseBool(VNone) == VNone
  {
    assert "TRUE"[1] != "True"[1] && "TRUE"[1] != "true"[1];
    assert VStr("TRUE") !in TrueForms && VStr("TRUE") !in FalseForms;
    assert |"yes"| == 3 && "yes"[0] != "t"[0];
    assert VStr("yes") !in TrueForms && VStr("yes") !in FalseForms;
  }
}
