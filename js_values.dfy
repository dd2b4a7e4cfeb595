/** The JavaScript values the ticker handles: options, reader results, ticker payloads. */
module JsValues {

  datatype Option<T> = None | Some(value: T)

  /** A JavaScript number: a finite value or NaN (infinities are not modelled). */
  datatype Number = Finite(r: real) | NaN

  /** Identity of a callable value: the library's own printer, or a function supplied by a source plugin. */
  datatype FunctionId = PrintTickerFn | Plugin(id: nat)

  /**
   * A JavaScript value. `Obj` is a plain object (`{...}` literal); `Instance` is any other object
   * (a class instance, a Date, ...) with its own enumerable properties.
   */
  datatype Value =
    | Undefined
    | Null
    | Bool(b: bool)
    | Num(n: Number)
    | Str(s: string)
    | Arr(items: seq<Value>)
    | Obj(fields: map<string, Value>)
    | Instance(props: map<string, Value>)
    | Func(f: FunctionId)

  /** The number value of an integer. */
  function Int(i: int): Value {
    Num(Finite(i as real))
  }

  /** Property read `v[key]`: `undefined` when the object has no such own property. */
  function Get(v: Value, key: string): Value {
    match v
    case Obj(fields) => if key in fields then fields[key] else Undefined
    case Instance(props) => if key in props then props[key] else Undefined
    case _ => Undefined
  }

  /** Numeric subtraction `a - b`; NaN is contagious. */
  function Sub(a: Number, b: Number): (d: Number)
    ensures d.NaN? <==> a.NaN? || b.NaN?
    ensures d.Finite? ==> d.r + b.r == a.r
  {
    if a.Finite? && b.Finite? then Finite(a.r - b.r) else NaN
  }

  /** JavaScript truthiness of a number: neither zero nor NaN. */
  predicate Truthy(n: Number): (t: bool)
    ensures t <==> n != NaN && n != Finite(0.0)
  {
    n.Finite? && n.r != 0.0
  }

  /** The abstract operation ToNumber, as applied by `-` to its operands. */
  function ToNumber(v: Value): (n: Number)
    ensures v.Num? ==> n == v.n
    ensures n.Finite? ==> v.Null? || v.Bool? || v.Num? || v.Str?
  {
    match v
    case Undefined => NaN
    case Null => Finite(0.0)
    case Bool(b) => Finite(if b then 1.0 else 0.0)
    case Num(n) => n
    case Str(s) => StringToNumber(s)
    case _ => NaN
  }

  predicate IsDigit(c: char) {
    '0' <= c <= '9'
  }

  predicate AllDigits(s: string) {
    forall i :: 0 <= i < |s| ==> IsDigit(s[i])
  }

  /** The value of a run of decimal digits, most significant first. */
  function DigitsValue(ds: string): nat
    requires AllDigits(ds)
    decreases |ds|
  {
    if ds == [] then 0 else 10 * DigitsValue(ds[..|ds| - 1]) + (ds[|ds| - 1] as int - '0' as int)
  }

  function Pow10(n: nat): (p: nat)
    ensures p >= 1
  {
    if n == 0 then 1 else 10 * Pow10(n - 1)
  }

  /** Index of the first '.', or |s| when there is none. */
  function DotIndex(s: string): (i: nat)
    ensures i <= |s|
    ensures i < |s| ==> s[i] == '.'
    ensures forall j :: 0 <= j < i ==> s[j] != '.'
  {
    if s == [] then 0 else if s[0] == '.' then 0 else 1 + DotIndex(s[1..])
  }

  /** `digits[.digits]` with at least one digit in all. */
  function UnsignedDecimal(s: string): Option<real> {
    var i := DotIndex(s);
    var whole := s[..i];
    var frac := if i < |s| then s[i + 1..] else "";
    if AllDigits(whole) && AllDigits(frac) && |whole| + |frac| > 0 then
      Some(DigitsValue(whole) as real + DigitsValue(frac) as real / Pow10(|frac|) as real)
    else
      None
  }

  /** A decimal literal with an optional sign. */
  function SignedDecimal(s: string): Option<real> {
    if |s| > 0 && s[0] == '-' then
      match UnsignedDecimal(s[1..])
      case Some(x) => Some(-x)
      case None => None
    else if |s| > 0 && s[0] == '+' then UnsignedDecimal(s[1..])
    else UnsignedDecimal(s)
  }

  /** ToNumber of a string: the empty string is 0, a decimal literal its value, anything else NaN. */
  function StringToNumber(s: string): Number {
    if s == "" then Finite(0.0)
    else match SignedDecimal(s)
      case Some(x) => Finite(x)
      case None => NaN
  }

  /** The decimal digits of a natural number, as `String(n)` renders it. */
  function NatText(n: nat): (t: string)
    ensures |t| > 0 && AllDigits(t)
  {
    if n < 10 then [(n + '0' as int) as char] else NatText(n / 10) + [(n % 10 + '0' as int) as char]
  }

  /** The decimal text of an integer, as `String(i)` renders it. */
  function IntText(i: int): string {
    if i < 0 then "-" + NatText(-i) else NatText(i)
  }

  lemma {:induction false} DigitsOfNatText(n: nat)
    ensures DigitsValue(NatText(n)) == n
  {
    var t := NatText(n);
    if n >= 10 {
      DigitsOfNatText(n / 10);
      assert t[..|t| - 1] == NatText(n / 10);
    }
  }

  lemma NoDotInDigits(t: string)
    requires AllDigits(t)
    ensures DotIndex(t) == |t|
  {
    if DotIndex(t) < |t| {
      assert !IsDigit(t[DotIndex(t)]);
    }
  }

  lemma DigitsAreDecimal(t: string)
    requires |t| > 0 && AllDigits(t)
    ensures UnsignedDecimal(t) == Some(DigitsValue(t) as real)
  {
    NoDotInDigits(t);
    assert t[..DotIndex(t)] == t;
    var frac: string := "";
    assert DigitsValue(frac) == 0 && Pow10(|frac|) == 1;
    assert DigitsValue(frac) as real / Pow10(|frac|) as real == 0.0;
  }

  /** Converting the rendering of an integer back to a number gives the integer. */
  lemma IntTextRoundTrip(i: int)
    ensures StringToNumber(IntText(i)) == Finite(i as real)
  {
    var n: nat := if i < 0 then -i else i;
    var t := NatText(n);
    DigitsOfNatText(n);
    DigitsAreDecimal(t);
    if i < 0 {
      assert IntText(i)[1..] == t;
      assert SignedDecimal(IntText(i)) == Some(-(n as real));
    } else {
      assert IsDigit(t[0]);
      assert SignedDecimal(t) == Some(n as real);
    }
  }
}
