/**
 * The predicates of lib/helpers.ts over a model of JavaScript values.
 *
 * A JavaScript number is a double; here it is either a finite real, an
 * infinity, or NaN (negative zero is not distinguished from zero).
 * Functions, plain objects and arrays are reference values and carry an
 * identity only.
 */
module Helpers {

  datatype Number = Finite(value: real) | Infinite(negative: bool) | NaN

  datatype JsValue =
    | Undefined
    | Null
    | Bool(b: bool)
    | Num(n: Number)
    | Str(s: string)
    | Function(fid: nat)
    | Object(oid: nat)
    | Array(aid: nat)

  /** The string `typeof v` evaluates to. */
  function TypeOf(v: JsValue): string
  {
    match v
    case Undefined => "undefined"
    case Null => "object"
    case Bool(_) => "boolean"
    case Num(_) => "number"
    case Str(_) => "string"
    case Function(_) => "function"
    case Object(_) => "object"
    case Array(_) => "object"
  }

  /** `isType(type, value)`: `typeof value === type`. */
  function IsType(typeName: string, v: JsValue): (r: bool)
    ensures r ==> typeName in {"undefined", "object", "boolean", "number", "string", "function"}
    ensures typeName == "string" ==> (r <==> v.Str?)
    ensures typeName == "number" ==> (r <==> v.Num?)
    ensures typeName == "function" ==> (r <==> v.Function?)
    ensures typeName == "object" ==> (r <==> v.Null? || v.Object? || v.Array?)
  {
    TypeOf(v) == typeName
  }

  /** `isString(value)` */
  function IsString(v: JsValue): (r: bool)
    ensures r <==> v.Str?
  {
    IsType("string", v)
  }

  /** `isNumber(value)`: true of every number, NaN and the infinities included. */
  function IsNumber(v: JsValue): (r: bool)
    ensures r <==> v.Num?
  {
    IsType("number", v)
  }

  /** `isFunction(value)` */
  function IsFunction(v: JsValue): (r: bool)
    ensures r <==> v.Function?
  {
    IsType("function", v)
  }

  /** The global `isFinite`, applied to a number. */
  predicate IsFiniteNumber(n: Number)
  {
    n.Finite?
  }

  /** The number value of the integer `k`. */
  function IntegerNumber(k: int): JsValue
  {
    Num(Finite(k as real))
  }

  /** `isInteger(value)`: a finite number equal to its own floor. */
  function IsInteger(v: JsValue): (r: bool)
    ensures r <==> exists k: int :: v == IntegerNumber(k)
  {
    var r := IsNumber(v) && IsFiniteNumber(v.n) && v.n.value.Floor as real == v.n.value;
    assert r ==> v == IntegerNumber(v.n.value.Floor);
    r
  }

  /** The integer an integral number denotes. */
  function IntegerValue(v: JsValue): (k: int)
    requires IsInteger(v)
    ensures v == IntegerNumber(k)
  {
    v.n.value.Floor
  }

  /** JavaScript truthiness: the value `if (v)` and `Boolean(v)` test. */
  predicate Truthy(v: JsValue)
  {
    match v
    case Undefined => false
    case Null => false
    case Bool(b) => b
    case Num(n) => n.Infinite? || (n.Finite? && n.value != 0.0)
    case Str(s) => |s| > 0
    case Function(_) => true
    case Object(_) => true
    case Array(_) => true
  }

  /** `not(value)`: true of exactly the falsy values of the language. */
  function Not(v: JsValue): (r: bool)
    ensures r <==> v == Undefined || v == Null || v == Bool(false) || v == Num(Finite(0.0))
                   || v == Num(NaN) || v == Str("")
  {
    !Truthy(v)
  }

  /**
   * The characters `String.prototype.trim` strips: WhiteSpace (tab, vertical
   * tab, form feed, space, no-break space, byte order mark and the Unicode
   * space separators) and LineTerminator.
   */
  predicate IsJsWhitespace(c: char)
  {
    || c == '\t' || c == '\U{000B}' || c == '\U{000C}' || c == ' ' || c == '\U{00A0}'
    || c == '\U{FEFF}' || c == '\n' || c == '\r' || c == '\U{2028}' || c == '\U{2029}'
    || c == '\U{1680}' || ('\U{2000}' <= c <= '\U{200A}') || c == '\U{202F}'
    || c == '\U{205F}' || c == '\U{3000}'
  }

  predicate AllWhitespace(s: string)
  {
    forall i :: 0 <= i < |s| ==> IsJsWhitespace(s[i])
  }

  /** Drops leading whitespace. */
  function TrimStart(s: string): (r: string)
    ensures |r| <= |s|
  {
    if s != [] && IsJsWhitespace(s[0]) then TrimStart(s[1..]) else s
  }

  /** Drops trailing whitespace. */
  function TrimEnd(s: string): (r: string)
    ensures |r| <= |s|
  {
    if s != [] && IsJsWhitespace(s[|s| - 1]) then TrimEnd(s[..|s| - 1]) else s
  }

  /** `s.trim()` */
  function Trim(s: string): string
  {
    TrimEnd(TrimStart(s))
  }

  /** `TrimStart` keeps a suffix and drops only whitespace in front of it. */
  lemma {:induction false} TrimStartDropsWhitespace(s: string)
    ensures TrimStart(s) == s[|s| - |TrimStart(s)|..]
    ensures forall i :: 0 <= i < |s| - |TrimStart(s)| ==> IsJsWhitespace(s[i])
  {
    if s != [] && IsJsWhitespace(s[0]) {
      TrimStartDropsWhitespace(s[1..]);
      forall i | 1 <= i < |s| - |TrimStart(s)|
        ensures IsJsWhitespace(s[i])
      {
        assert s[i] == s[1..][i - 1];
      }
    }
  }

  /** A whitespace-only string trims at the front to nothing. */
  lemma {:induction false} TrimStartOfWhitespace(s: string)
    requires AllWhitespace(s)
    ensures TrimStart(s) == ""
  {
    if s != [] {
      TrimStartOfWhitespace(s[1..]);
    }
  }

  /** Only a whitespace-only string trims at the back to nothing. */
  lemma {:induction false} TrimEndEmpty(t: string)
    requires TrimEnd(t) == ""
    ensures AllWhitespace(t)
  {
    if t != [] {
      var init := t[..|t| - 1];
      TrimEndEmpty(init);
      forall i | 0 <= i < |t|
        ensures IsJsWhitespace(t[i])
      {
        if i < |t| - 1 {
          assert t[i] == init[i];
        }
      }
    }
  }

  /** A string trims to nothing exactly when every character is whitespace. */
  lemma TrimEmptyIffAllWhitespace(s: string)
    ensures Trim(s) == "" <==> AllWhitespace(s)
  {
    if AllWhitespace(s) {
      TrimStartOfWhitespace(s);
    }
    if Trim(s) == "" {
      var t := TrimStart(s);
      TrimStartDropsWhitespace(s);
      TrimEndEmpty(t);
      assert s == s[..|s| - |t|] + t;
    }
  }

  /** `isEmptyString(value)`: a string made of whitespace only; false for every non-string. */
  function IsEmptyString(v: JsValue): (r: bool)
    ensures r <==> v.Str? && AllWhitespace(v.s)
  {
    if IsString(v) then TrimEmptyIffAllWhitespace(v.s); Trim(v.s) == "" else false
  }

  function Min(a: real, b: real): real
  {
    if a <= b then a else b
  }

  function Max(a: real, b: real): real
  {
    if a <= b then b else a
  }

  /**
   * `inRange(value, min, max)`: value lies in the half-open interval between
   * the two bounds, whichever order they are given in.
   */
  function InRange(value: real, min: real, max: real): (r: bool)
    ensures r <==> (min <= value < max) || (max <= value < min)
  {
    Min(min, max) <= value < Max(min, max)
  }

  /** `inRange(value)` with its default bounds 0 and 1. */
  function InRangeDefault(value: real): (r: bool)
    ensures r <==> 0.0 <= value < 1.0
  {
    InRange(value, 0.0, 1.0)
  }

  /** The bounds of `inRange` may be given in either order. */
  lemma InRangeSymmetric(value: real, a: real, b: real)
    ensures InRange(value, a, b) == InRange(value, b, a)
  {
  }

  /** The cases the helper tests check for `isEmptyString`. */
  lemma EmptyStringExamples()
    ensures IsEmptyString(Str("")) && IsEmptyString(Str("     "))
    ensures !IsEmptyString(Str("keyboard cat")) && !IsEmptyString(Num(Finite(99.0)))
    ensures !IsEmptyString(Undefined)
  {
    assert !IsJsWhitespace("keyboard cat"[0]);
  }

  /** The cases the helper tests check for `inRange`. */
  lemma InRangeExamples()
    ensures InRangeDefault(0.0) && InRange(0.9, 0.0, 1.0) && InRange(7.0, 10.0, 5.0)
    ensures InRange(4.0, 3.0, 5.0)
    ensures !InRange(7.0, 3.0, 5.0) && !InRange(5.0, 0.0, 5.0) && !InRangeDefault(7.0)
  {
  }

  /** The cases the helper tests check for `not`. */
  lemma NotExamples()
    ensures Not(Bool(false)) && Not(Num(Finite(0.0))) && Not(Undefined) && Not(Str(""))
    ensures !Not(Bool(true)) && !Not(Num(Finite(1.0))) && !Not(Object(0)) && !Not(Array(0))
    ensures !Not(Str("cat"))
  {
  }
}
