/**
 * The few pieces of JavaScript value semantics that the backend's scoring,
 * templating and persistence code depends on: missing values, the `||` and
 * `??` operators, `Math.round`, number-to-text conversion of integers and
 * `Array.prototype.join`.
 */
module Js {

  /** A document field or object property that may be absent (`undefined`/`null`). */
  datatype Option<+T> = None | Some(value: T)

  /** The outcome of an operation that can throw: the value, or the thrown message. */
  datatype Result<+T> = Ok(value: T) | Err(error: string)

  /**
   * A JavaScript number as the core sees it: `NaN` (which is also what
   * `Number(undefined)` and arithmetic on a missing field give) or a finite value.
   */
  datatype JsNumber = NaN | Num(value: real)

  /**
   * A property of parsed JSON as `x || fallback` and `Number(...)` see it:
   * falsy (missing, null, false, 0, NaN, ""), or truthy together with the
   * number it converts to, which is NaN for text such as "N/A" and 0 for the
   * text "0".
   */
  datatype JsValue = FalsyValue | TruthyValue(asNumber: JsNumber)

  /** `x ?? y`: falls back only when `x` is absent, never on 0 or "". */
  function Coalesce<T>(x: Option<T>, y: Option<T>): (r: Option<T>)
    ensures x.Some? ==> r == x
    ensures x.None? ==> r == y
  {
    if x.Some? then x else y
  }

  /** A numeric document field is truthy when it is present and not 0. */
  predicate Truthy(x: Option<real>)
  {
    x.Some? && x.value != 0.0
  }

  /** A string property is truthy when it is present and not empty. */
  predicate Filled(s: Option<string>)
  {
    s.Some? && s.value != ""
  }

  /** `Number(x)` for a numeric field: a missing field becomes NaN. */
  function ToNumber(x: Option<real>): JsNumber
  {
    if x.Some? then Num(x.value) else NaN
  }

  /** `x * k`: NaN is absorbing. */
  function Times(x: JsNumber, k: real): JsNumber
  {
    if x.Num? then Num(x.value * k) else NaN
  }

  /** `x || fallback` on a number: NaN and 0 are falsy and give the fallback. */
  function OrNumber(x: JsNumber, fallback: real): (r: real)
    ensures x.NaN? ==> r == fallback
    ensures x.Num? && x.value != 0.0 ==> r == x.value
    ensures r == fallback || (x.Num? && r == x.value)
  {
    if x.Num? && x.value != 0.0 then x.value else fallback
  }

  /** `Math.round(x)`: the nearest integer, halves rounded up. */
  function Round(x: real): (n: int)
    ensures x - 0.5 < n as real <= x + 0.5
  {
    (x + 0.5).Floor
  }

  /** `Math.round(x * 100) / 100`: rounding to two decimals. */
  function Round2(x: real): (r: real)
    ensures x - 0.005 < r <= x + 0.005
  {
    Round(x * 100.0) as real / 100.0
  }

  lemma {:induction false} RoundMonotone(x: real, y: real)
    requires x <= y
    ensures Round(x) <= Round(y)
  {
    assert (x + 0.5).Floor as real <= x + 0.5 <= y + 0.5 < (y + 0.5).Floor as real + 1.0;
  }

  function DigitChar(d: nat): (c: char)
    requires d < 10
    ensures '0' <= c <= '9'
  {
    "0123456789"[d]
  }

  /** The decimal text of a natural number, as template literals print it. */
  function NatToString(n: nat): (s: string)
    ensures |s| >= 1
    ensures forall i :: 0 <= i < |s| ==> '0' <= s[i] <= '9'
    decreases n
  {
    if n < 10 then [DigitChar(n)] else NatToString(n / 10) + [DigitChar(n % 10)]
  }

  /** The decimal text of an integer, with a leading '-' when negative. */
  function IntToString(i: int): (s: string)
    ensures |s| >= 1
    ensures i >= 0 ==> s == NatToString(i)
    ensures i < 0 ==> s[0] == '-'
  {
    if i < 0 then "-" + NatToString(-i) else NatToString(i)
  }

  /** `parts.join(sep)`. */
  function Join(parts: seq<string>, sep: string): string
  {
    if |parts| == 0 then ""
    else if |parts| == 1 then parts[0]
    else parts[0] + sep + Join(parts[1..], sep)
  }

  /** A joined list begins with the first part. */
  lemma {:induction false} JoinStartsWithHead(parts: seq<string>, sep: string)
    requires |parts| > 0
    ensures |Join(parts, sep)| >= |parts[0]|
    ensures Join(parts, sep)[..|parts[0]|] == parts[0]
  {
    if |parts| > 1 {
      var s := Join(parts, sep);
      assert s == parts[0] + (sep + Join(parts[1..], sep));
    }
  }
}
