/**
 * The validation predicates the ticker mixes into lodash, and the default printer's
 * price-change computation.
 */
module Util {
  import opened JsValues

  // ---- the lodash checks the mixins are built from ----

  /** `_.isPlainObject`. */
  predicate IsPlainObject(v: Value) {
    v.Obj?
  }

  /** `_.isArray`. */
  predicate IsArray(v: Value) {
    v.Arr?
  }

  /** `_.isString`. */
  predicate IsString(v: Value) {
    v.Str?
  }

  /** `_.isNumber` (true of NaN as well). */
  predicate IsNumber(v: Value) {
    v.Num?
  }

  /** `_.isFunction`. */
  predicate IsFunction(v: Value) {
    v.Func?
  }

  /**
   * `_.isEmpty`: null and undefined are empty, arrays and strings by length, objects when they
   * have no own enumerable keys, and every other value (numbers, booleans, functions) is empty.
   */
  predicate IsEmpty(v: Value) {
    match v
    case Arr(items) => |items| == 0
    case Str(s) => |s| == 0
    case Obj(fields) => |fields| == 0
    case Instance(props) => |props| == 0
    case _ => true
  }

  // ---- the mixins ----

  /** `isNonEmptyObject`: a plain object with at least one key. */
  function IsNonEmptyObject(v: Value): (r: bool)
    ensures r <==> v.Obj? && exists k :: k in v.fields
  {
    IsPlainObject(v) && !IsEmpty(v)
  }

  /** `isNonEmptyArray`: an array with at least one element. */
  function IsNonEmptyArray(v: Value): (r: bool)
    ensures r <==> v.Arr? && |v.items| >= 1
  {
    IsArray(v) && !IsEmpty(v)
  }

  /** `isNonEmptyString`: a string of positive length. */
  function IsNonEmptyString(v: Value): (r: bool)
    ensures r <==> v.Str? && |v.s| > 0
  {
    IsString(v) && !IsEmpty(v)
  }

  /** `isPositiveNumber`: a number above zero, so never NaN. */
  function IsPositiveNumber(v: Value): (r: bool)
    ensures r <==> v.Num? && v.n.Finite? && v.n.r > 0.0
    ensures v == Num(NaN) ==> !r
  {
    IsNumber(v) && Above(v.n, 0.0)
  }

  /** `n > x` on a number: every comparison with NaN is false. */
  predicate Above(n: Number, x: real) {
    n.Finite? && n.r > x
  }

  // ---- the default printer ----

  /** `Math.round` on a finite value: the nearest integer, halves rounded up. */
  function Round(x: real): int {
    (x + 0.5).Floor
  }

  /** The colour the printer gives the change: green, red, or none. */
  datatype Change = Up | Down | Unchanged

  /** What one call of the printer writes: `<symbol>: <price> (<diff>)`, coloured by `change`. */
  datatype Line = Line(symbol: Value, price: Value, diff: real, change: Change)

  /**
   * `Math.round((price - lastPrice || 0) * 100) / 100`: the move since the last price, in whole
   * cents; a NaN or zero difference counts as 0.
   */
  function PriceChange(price: Value, lastPrice: Value): (d: real)
    ensures (d * 100.0).Floor as real == d * 100.0
    ensures ToNumber(price) == ToNumber(lastPrice) ==> d == 0.0
  {
    var delta := Sub(ToNumber(price), ToNumber(lastPrice));
    var x := if Truthy(delta) then delta.r else 0.0;
    Round(x * 100.0) as real / 100.0
  }

  /** The colour of a printed change: green above zero, red below, none at zero. */
  function ChangeOf(d: real): (c: Change)
    ensures c == Up <==> d > 0.0
    ensures c == Down <==> d < 0.0
    ensures c == Unchanged <==> d == 0.0
  {
    if d > 0.0 then Up else if d < 0.0 then Down else Unchanged
  }

  /** The printer, bound to a ticker with `symbol` and `lastPrice`, given the written data. */
  function PrintTicker(symbol: Value, lastPrice: Value, data: Value): (l: Line)
    ensures l.symbol == symbol && l.price == Get(data, "price")
    ensures l.change == Up <==> l.diff > 0.0
    ensures l.change == Down <==> l.diff < 0.0
    ensures ToNumber(Get(data, "price")) == ToNumber(lastPrice) ==> l.diff == 0.0 && l.change == Unchanged
  {
    var d := PriceChange(Get(data, "price"), lastPrice);
    Line(symbol, Get(data, "price"), d, ChangeOf(d))
  }

  /** The printed change is the exact difference to within half a cent. */
  lemma PriceChangeWithinHalfCent(price: Value, lastPrice: Value, p: real, l: real)
    requires ToNumber(price) == Finite(p) && ToNumber(lastPrice) == Finite(l)
    ensures p - l - 0.005 < PriceChange(price, lastPrice) <= p - l + 0.005
  {
    var x := p - l;
    var r := Round(x * 100.0);
    assert r as real <= x * 100.0 + 0.5 < r as real + 1.0;
  }

  /**
   * The colour follows the sign of the printed change, and so the size of the real move:
   * green from half a cent up, red below minus half a cent, uncoloured in between and for NaN.
   */
  lemma ChangeMarker(price: Value, lastPrice: Value)
    ensures var d := PriceChange(price, lastPrice);
      && (ChangeOf(d) == Up <==> d > 0.0)
      && (ChangeOf(d) == Down <==> d < 0.0)
      && (ChangeOf(d) == Unchanged <==> d == 0.0)
    ensures var delta := Sub(ToNumber(price), ToNumber(lastPrice));
      && (delta.NaN? ==> ChangeOf(PriceChange(price, lastPrice)) == Unchanged)
      && (delta.Finite? ==>
            && (ChangeOf(PriceChange(price, lastPrice)) == Up <==> delta.r >= 0.005)
            && (ChangeOf(PriceChange(price, lastPrice)) == Down <==> delta.r < -0.005))
  {
    var delta := Sub(ToNumber(price), ToNumber(lastPrice));
    if delta.Finite? {
      var x := delta.r;
      var r := Round(x * 100.0);
      assert r as real <= x * 100.0 + 0.5 < r as real + 1.0;
      assert r >= 1 <==> x >= 0.005;
      assert r <= -1 <==> x < -0.005;
    }
  }

  /** Two worked cases: from 10 to 12.345 prints +2.35 in green; from 10 to 8 prints -2 in red. */
  lemma PrinterExamples()
    ensures PriceChange(Num(Finite(12.345)), Int(10)) == 2.35
    ensures ChangeOf(PriceChange(Num(Finite(12.345)), Int(10))) == Up
    ensures PriceChange(Int(8), Int(10)) == -2.0
    ensures ChangeOf(PriceChange(Int(8), Int(10))) == Down
  {
    assert Round(2.345 * 100.0) == 235;
    assert Round(-2.0 * 100.0) == -200;
  }
}
