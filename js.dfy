/**
 * The slice of the JavaScript value world that the modelled handlers touch:
 * JSON values as `JSON.parse` builds them, truthiness, property reads,
 * `String(v)`, `parseFloat(v)`, `Number.prototype.toFixed` and
 * `Array.prototype.slice(start)`.
 *
 * Numbers are exact reals rather than IEEE doubles.  What the engine does that
 * the model cannot define (printing a number, parsing a text) is handed in as
 * a `Runtime` value.
 */
module Js {

  datatype Option<T> = None | Some(value: T)

  /** A value produced by `JSON.parse`. */
  datatype Json =
    | JNull
    | JBool(b: bool)
    | JNum(n: real)
    | JStr(s: string)
    | JArr(items: seq<Json>)
    | JObj(fields: map<string, Json>)

  /** A JavaScript number: `NaN` or a finite value. */
  datatype Number = NaN | Fin(r: real)

  /**
   * What the engine computes that the model leaves abstract: printing a
   * number, `parseFloat` on a text, and `JSON.stringify`.
   */
  datatype Runtime = Runtime(numberText: real -> string, parseText: string -> Number, jsonText: Json -> string)

  /** The wall clock, read once per event: milliseconds and the `toISOString()` text. */
  datatype Clock = Clock(ms: int, iso: string)

  /** JavaScript truthiness of a JSON value. */
  predicate Truthy(v: Json)
  {
    // The falsy JSON values: null, false, 0 and the empty string.
    v != JNull && v != JBool(false) && v != JNum(0.0) && v != JStr("")
  }

  /** Truthiness of a property read, where `None` is `undefined`. */
  predicate Present(v: Option<Json>)
  {
    v.Some? && Truthy(v.value)
  }

  /**
   * `v.key` on a value that is not `null`: only objects carry own properties
   * coming from JSON.  (The property names read by the model are neither
   * `length`, nor array indices, nor inherited names.)
   */
  function Get(v: Json, key: string): (r: Option<Json>)
    ensures r.Some? <==> v.JObj? && key in v.fields
    ensures r.Some? ==> r.value == v.fields[key]
  {
    if v.JObj? && key in v.fields then Some(v.fields[key]) else None
  }

  /** `v.key` where `v` may itself be `undefined`; reading a property of `undefined` is never done by the model. */
  function GetOpt(v: Option<Json>, key: string): Option<Json>
  {
    if v.Some? then Get(v.value, key) else None
  }

  /**
   * `String(v)`; `None` is the TypeError thrown for an object whose own
   * `toString` property is not callable (every JSON value is not), since
   * `Object.prototype.valueOf` then yields no primitive either.
   */
  function JsString(v: Json, rt: Runtime): Option<string>
    decreases v, 1
  {
    match v
    case JNull => Some("null")
    case JBool(b) => Some(if b then "true" else "false")
    case JNum(n) => Some(rt.numberText(n))
    case JStr(s) => Some(s)
    case JArr(items) => Join(v, 0, rt)
    case JObj(m) => if "toString" in m then None else Some("[object Object]")
  }

  /** `Array.prototype.join(",")` from index `i` on; `null` elements print as empty. */
  function Join(v: Json, i: nat, rt: Runtime): Option<string>
    requires v.JArr? && i <= |v.items|
    decreases v, 0, |v.items| - i
  {
    if i == |v.items| then Some("")
    else
      var head := if v.items[i].JNull? then Some("") else JsString(v.items[i], rt);
      var rest := Join(v, i + 1, rt);
      if head.None? || rest.None? then None
      else Some(head.value + (if i + 1 < |v.items| then "," else "") + rest.value)
  }

  /** Whether a template literal or `String()` can print the value of a property read without throwing. */
  predicate Printable(v: Option<Json>, rt: Runtime)
  {
    v.None? || JsString(v.value, rt).Some?
  }

  /** `parseFloat(v)` of a property read; `None` is a thrown TypeError. */
  function ParseFloat(v: Option<Json>, rt: Runtime): (r: Option<Number>)
    ensures v == Some(JNull) || v.None? ==> r == Some(NaN)
    ensures v.Some? && v.value.JNum? ==> r == Some(Fin(v.value.n))
    ensures r.None? ==> !Printable(v, rt)
  {
    if v.None? then Some(NaN)
    else match v.value
      case JNull => Some(NaN)
      case JBool(_) => Some(NaN)
      case JNum(n) => Some(Fin(n))
      case JStr(s) => Some(rt.parseText(s))
      case JObj(m) => if "toString" in m then None else Some(NaN)
      case JArr(_) =>
        var text := JsString(v.value, rt);
        if text.None? then None else Some(rt.parseText(text.value))
  }

  function Add(a: Number, b: Number): (r: Number)
    ensures r.Fin? <==> a.Fin? && b.Fin?
    ensures r.Fin? ==> r.r == a.r + b.r
  {
    if a.Fin? && b.Fin? then Fin(a.r + b.r) else NaN
  }

  function Scale(a: Number, k: real): Number
  {
    if a.Fin? then Fin(a.r * k) else NaN
  }

  function Pow10(d: nat): (p: nat)
    ensures p >= 1
  {
    if d == 0 then 1 else 10 * Pow10(d - 1)
  }

  /** How many units of 10^-d the magnitude `a` rounds to, half-way cases going up. */
  function Units(a: real, d: nat): int
  {
    (a * (Pow10(d) as real) + 0.5).Floor
  }

  function RoundMagnitude(a: real, d: nat): real
  {
    Units(a, d) as real / (Pow10(d) as real)
  }

  /**
   * The exact value of `x.toFixed(d)` read back as a number: the multiple of
   * 10^-d nearest to `x`, ties going away from zero (the magnitude is rounded
   * and the sign put back).
   */
  function RoundTo(x: real, d: nat): real
  {
    if x < 0.0 then -RoundMagnitude(-x, d) else RoundMagnitude(x, d)
  }

  /** From this magnitude on, `toFixed` prints the number as `String` does, unrounded. */
  const FixedLimit: real := 1000000000000000000000.0

  /**
   * `n.toFixed(d)` as the number its text denotes; `NaN.toFixed(d)` is the
   * text `"NaN"`, and a magnitude of at least 10^21 is printed in full.
   */
  function ToFixed(n: Number, d: nat): (r: Number)
    ensures r.Fin? <==> n.Fin?
  {
    if n.NaN? then NaN
    else if n.r >= FixedLimit || n.r <= -FixedLimit then n
    else Fin(RoundTo(n.r, d))
  }

  /** `toFixed(d)` moves a number by at most half a unit in the last place. */
  lemma ToFixedIsNearest(n: Number, d: nat)
    requires n.Fin?
    ensures var p := Pow10(d) as real;
      -0.5 / p <= ToFixed(n, d).r - n.r <= 0.5 / p
  {
    RoundToIsNearest(n.r, d);
  }

  /** `y` is a whole number. */
  predicate Whole(y: real)
  {
    y.Floor as real == y
  }

  /** Below 10^21 in magnitude, `toFixed(d)` keeps exactly `d` decimals: the result is a whole number of units of 10^-d. */
  lemma ToFixedHasDecimals(n: Number, d: nat)
    requires n.Fin? && -FixedLimit < n.r < FixedLimit
    ensures Whole(ToFixed(n, d).r * (Pow10(d) as real))
  {
    var k := if n.r < 0.0 then -Units(-n.r, d) else Units(n.r, d);
    assert ToFixed(n, d).r == RoundTo(n.r, d);
    RoundToUnits(n.r, d);
    assert ToFixed(n, d).r * (Pow10(d) as real) == k as real;
    assert Whole(k as real);
  }

  /** `RoundTo(x, d)` is the signed count of units of 10^-d. */
  lemma RoundToUnits(x: real, d: nat)
    ensures RoundTo(x, d) * (Pow10(d) as real) == (if x < 0.0 then -Units(-x, d) else Units(x, d)) as real
  {
    var p := Pow10(d) as real;
    if x < 0.0 {
      MagnitudeUnits(-x, d);
      assert RoundTo(x, d) * p == -(RoundMagnitude(-x, d) * p);
    } else {
      MagnitudeUnits(x, d);
    }
  }

  lemma MagnitudeUnits(a: real, d: nat)
    ensures RoundMagnitude(a, d) * (Pow10(d) as real) == Units(a, d) as real
  {
  }

  lemma FloorBounds(y: real)
    ensures y - 1.0 < y.Floor as real <= y
  {
  }

  lemma {:induction false} RoundMagnitudeIsNearest(a: real, d: nat)
    ensures var p := Pow10(d) as real;
      -0.5 / p < RoundMagnitude(a, d) - a <= 0.5 / p
  {
    var p := Pow10(d) as real;
    var k := Units(a, d) as real;
    FloorBounds(a * p + 0.5);
    assert a * p - 0.5 < k <= a * p + 0.5;
    assert (k - a * p) / p == k / p - a;
  }

  /** `toFixed(d)` moves a value by at most half a unit in the last place. */
  lemma {:induction false} RoundToIsNearest(x: real, d: nat)
    ensures var p := Pow10(d) as real;
      -0.5 / p <= RoundTo(x, d) - x <= 0.5 / p
  {
    var h := 0.5 / (Pow10(d) as real);
    if x < 0.0 {
      RoundMagnitudeIsNearest(-x, d);
      var e := RoundMagnitude(-x, d) - (-x);
      assert -h < e <= h;
      assert RoundTo(x, d) - x == -e;
    } else {
      RoundMagnitudeIsNearest(x, d);
    }
  }

  /** The regular-expression class `\d`: the ASCII digits only. */
  predicate IsDigit(c: char)
  {
    '0' <= c <= '9'
  }

  predicate AllDigits(s: string)
  {
    forall i :: 0 <= i < |s| ==> IsDigit(s[i])
  }

  /**
   * `Array.prototype.slice(start)`: a negative start counts from the end and
   * is clamped at the front, a non-negative one is clamped at the length.
   */
  function SliceFrom<T>(s: seq<T>, start: int): seq<T>
  {
    var k := if start < 0 then (if |s| + start < 0 then 0 else |s| + start)
             else (if start > |s| then |s| else start);
    s[k..]
  }
}
