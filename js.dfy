/**
 * The fragment of JavaScript value semantics the server relies on: the primitive
 * values a tool's arguments hold, truthiness, the operators `||`, `??` and
 * `!== false` used for defaults, the string form used by template literals,
 * and property reads on the (possibly absent) arguments object.
 */
module Js {
  import opened Wrappers

  /** A primitive JavaScript value. Numbers are restricted to integers. */
  datatype JsValue = Undefined | Null | Bool(b: bool) | Num(n: int) | Str(s: string)

  /** ECMAScript ToBoolean on the modelled values. */
  predicate Truthy(v: JsValue) {
    match v
    case Undefined => false
    case Null => false
    case Bool(b) => b
    case Num(n) => n != 0
    case Str(s) => s != ""
  }

  predicate IsNullish(v: JsValue) {
    v.Undefined? || v.Null?
  }

  /** The value of `v || d`: the left operand when it is truthy, the right one otherwise. */
  function Or(v: JsValue, d: JsValue): (r: JsValue)
    ensures r == v || r == d
    ensures Truthy(r) <==> Truthy(v) || Truthy(d)
    ensures Truthy(v) ==> r == v
    ensures !Truthy(v) ==> r == d
  {
    if Truthy(v) then v else d
  }

  /** The value of `v ?? d`: the right operand only when the left one is undefined or null. */
  function Coalesce(v: JsValue, d: JsValue): (r: JsValue)
    ensures r == v || r == d
    ensures IsNullish(v) ==> r == d
    ensures !IsNullish(v) ==> r == v
  {
    if IsNullish(v) then d else v
  }

  /** The value of `v !== false` (strict inequality with the boolean false). */
  predicate NotFalse(v: JsValue) {
    v != Bool(false)
  }

  /** `||` and `??` agree except on the falsy values that are not nullish (0, "" and false). */
  lemma OrVersusCoalesce(v: JsValue, d: JsValue)
    ensures IsNullish(v) ==> Or(v, d) == d && Coalesce(v, d) == d
    ensures !Truthy(v) && !IsNullish(v) ==> Or(v, d) == d && Coalesce(v, d) == v
    ensures Truthy(v) ==> Or(v, d) == v && Coalesce(v, d) == v
    ensures Or(v, d) != Coalesce(v, d) <==> !Truthy(v) && !IsNullish(v) && v != d
  {
  }

  /** The falsy values that `||` replaces, next to values a reader might expect to be falsy but are not. */
  lemma FalsyValues()
    ensures !Truthy(Undefined) && !Truthy(Null) && !Truthy(Bool(false))
    ensures !Truthy(Num(0)) && !Truthy(Str(""))
    ensures Truthy(Str("0")) && Truthy(Str("false")) && Truthy(Num(-1))
  {
  }

  /** Only the boolean false makes `v !== false` false; undefined, null, 0 and "" all keep it true. */
  lemma NotFalseOnlyRejectsFalse(v: JsValue)
    ensures !NotFalse(v) <==> v.Bool? && !v.b
    ensures !Truthy(v) && v != Bool(false) ==> NotFalse(v)
  {
  }

  /** A decimal digit character. */
  function DigitChar(d: nat): (c: char)
    requires d < 10
    ensures c as int == '0' as int + d
  {
    ('0' as int + d) as char
  }

  /** The decimal representation of a natural number, as JavaScript's String() writes an integer. */
  function NatToString(n: nat): (s: string)
    ensures |s| >= 1
    ensures forall i :: 0 <= i < |s| ==> '0' <= s[i] <= '9'
    ensures n < 10 <==> |s| == 1
    decreases n
  {
    if n < 10 then [DigitChar(n)] else NatToString(n / 10) + [DigitChar(n % 10)]
  }

  /** Different numbers are written differently. */
  lemma {:induction false} NatToStringInjective(a: nat, b: nat)
    requires NatToString(a) == NatToString(b)
    ensures a == b
    decreases a
  {
    if a >= 10 && b >= 10 {
      var sa, sb := NatToString(a), NatToString(b);
      assert sa == NatToString(a / 10) + [DigitChar(a % 10)];
      assert sb == NatToString(b / 10) + [DigitChar(b % 10)];
      assert sa[|sa| - 1] == DigitChar(a % 10) && sb[|sb| - 1] == DigitChar(b % 10);
      assert sa[..|sa| - 1] == NatToString(a / 10);
      assert sb[..|sb| - 1] == NatToString(b / 10);
      NatToStringInjective(a / 10, b / 10);
    }
  }

  /** String(n) for an integer n. */
  function IntToString(n: int): (s: string)
    ensures n >= 0 ==> s == NatToString(n)
    ensures n < 0 ==> s == "-" + NatToString(-n)
  {
    if n < 0 then "-" + NatToString(-n) else NatToString(n)
  }

  /** Different integers print differently, the sign included. */
  lemma {:induction false} IntToStringInjective(a: int, b: int)
    requires IntToString(a) == IntToString(b)
    ensures a == b
  {
    var sa, sb := IntToString(a), IntToString(b);
    assert (sa[0] == '-') == (a < 0);
    assert (sb[0] == '-') == (b < 0);
    if a < 0 {
      assert sa[1..] == NatToString(-a) && sb[1..] == NatToString(-b);
      NatToStringInjective(-a, -b);
    } else {
      NatToStringInjective(a, b);
    }
  }

  /**
   * The text a template literal `${v}` inserts for v. Only the empty string
   * inserts nothing.
   */
  function ToJsString(v: JsValue): (s: string)
    ensures s == [] <==> v == Str([])
  {
    match v
    case Undefined => "undefined"
    case Null => "null"
    case Bool(b) => if b then "true" else "false"
    case Num(n) => IntToString(n)
    case Str(s) => s
  }

  /**
   * Values of one kind print alike only when they are equal; across kinds
   * they can clash, as the number 1 and the string "1" do.
   */
  lemma ToJsStringInjectiveWithinKind(a: JsValue, b: JsValue)
    requires ToJsString(a) == ToJsString(b)
    ensures a.Num? && b.Num? ==> a == b
    ensures a.Str? && b.Str? ==> a == b
    ensures a.Bool? && b.Bool? ==> a == b
    ensures ToJsString(Num(1)) == ToJsString(Str("1"))
  {
    if a.Num? && b.Num? {
      IntToStringInjective(a.n, b.n);
    }
  }

  /** The `arguments` of a tool call: absent, or an object with named fields. */
  datatype Args = NoArgs | Fields(fields: map<string, JsValue>)

  /** `obj.key` on an object: a missing field reads as undefined. */
  function Field(fields: map<string, JsValue>, key: string): JsValue {
    if key in fields then fields[key] else Undefined
  }

  /** The message of the TypeError Node.js throws for `args.key` when args is undefined. */
  function ReadError(key: string): string {
    "Cannot read properties of undefined (reading '" + key + "')"
  }

  /** `args.key`: throws when there is no arguments object, reads the field otherwise. */
  function Prop(args: Args, key: string): (r: Result<JsValue>)
    ensures r.Failure? <==> args.NoArgs?
    ensures r.Failure? ==> r.error == ReadError(key)
    ensures args.Fields? && key !in args.fields ==> r == Success(Undefined)
    ensures args.Fields? && key in args.fields ==> r == Success(args.fields[key])
  {
    match args
    case NoArgs => Failure(ReadError(key))
    case Fields(f) => Success(Field(f, key))
  }
}
