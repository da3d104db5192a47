/** JavaScript values as the controllers receive them in a parsed JSON body or
    a URL parameter, and the three coercions the controllers rely on:
    truthiness (`!v`), `Number(v)` (behind `isNaN` and `v <= 0`) and the
    `length` of a string. */
module Js {

  datatype Option<T> = None | Some(value: T)

  /** A request field. `Undefined` stands for both `undefined` (the key is
      absent) and `null`; JSON numbers are integral here. */
  datatype JsValue = Undefined | Bool(b: bool) | Num(n: int) | Str(s: string)

  /** Truthiness: `!v` is false exactly for these values. */
  predicate Truthy(v: JsValue) {
    match v
    case Undefined => false
    case Bool(b) => b
    case Num(n) => n != 0
    case Str(s) => s != ""
  }

  predicate IsDigit(c: char) {
    '0' <= c <= '9'
  }

  /** The value of one decimal digit. */
  function Digit(c: char): nat
    requires IsDigit(c)
  {
    c as int - '0' as int
  }

  predicate AllDigits(s: string) {
    forall i | 0 <= i < |s| :: IsDigit(s[i])
  }

  /** The value of a run of decimal digits, most significant first. */
  function DigitsValue(s: string): nat
    requires AllDigits(s)
  {
    if s == [] then 0
    else 10 * DigitsValue(s[..|s| - 1]) + Digit(s[|s| - 1])
  }

  /** `Number(v)`, with `None` for NaN. A string converts when it is empty
      (to 0) or an optional sign followed by decimal digits. */
  function ToNumber(v: JsValue): Option<int> {
    match v
    case Undefined => None
    case Bool(b) => Some(if b then 1 else 0)
    case Num(n) => Some(n)
    case Str(s) =>
      if s == "" then Some(0)
      else if AllDigits(s) then Some(DigitsValue(s))
      else if |s| > 1 && (s[0] == '+' || s[0] == '-') && AllDigits(s[1..]) then
        var d: int := DigitsValue(s[1..]);
        Some(if s[0] == '-' then -d else d)
      else None
  }

  /** `isNaN(v)`. */
  predicate IsNaN(v: JsValue) {
    ToNumber(v).None?
  }

  /** `s.length`: the number of UTF-16 code units, two for a character
      outside the Basic Multilingual Plane. */
  function Utf16Length(s: string): nat {
    if s == [] then 0
    else Utf16Length(s[..|s| - 1]) + (if s[|s| - 1] as int > 0xFFFF then 2 else 1)
  }

  /** `v.length > max`. Only strings have a length; for other values
      `v.length` is `undefined` and the comparison is false. */
  predicate LongerThan(v: JsValue, max: nat) {
    v.Str? && Utf16Length(v.s) > max
  }

  predicate InBmp(s: string) {
    forall i | 0 <= i < |s| :: s[i] as int <= 0xFFFF
  }

  /** For text inside the Basic Multilingual Plane, `length` counts characters. */
  lemma {:induction false} Utf16LengthOfBmp(s: string)
    requires InBmp(s)
    ensures Utf16Length(s) == |s|
  {
    if s != [] {
      var init := s[..|s| - 1];
      assert InBmp(init) by {
        forall i | 0 <= i < |init| ensures init[i] as int <= 0xFFFF {
          assert init[i] == s[i];
        }
      }
      Utf16LengthOfBmp(init);
    }
  }

  /** A value whose number is not zero is truthy, so a falsy value is never
      a positive number. */
  lemma NonZeroNumberIsTruthy(v: JsValue)
    requires ToNumber(v).Some? && ToNumber(v).value != 0
    ensures Truthy(v)
  {
  }
}
