/**
 * The part of JavaScript's value semantics that the dashboard's code relies
 * on: dynamically typed values, the coercions `Number(x)`, `parseFloat(x)`,
 * `String(x)` / template literals, `Boolean(x)` and `a || b`, optional-chaining
 * property reads `x?.key`, object spread, strict equality against a number,
 * `Array.prototype.filter` and `Array.prototype.join`.
 *
 * Numbers are modelled as exact finite decimals (plus NaN and the two
 * infinities): binary floating point rounding, negative zero and overflow are
 * not modelled.
 */
module JsValue {

  datatype Option<T> = None | Some(value: T)

  /** The completion of an expression that may throw. */
  datatype Completion<T> = Normal(value: T) | Throw(exception: Value)

  // ---------------------------------------------------------------------------
  // Numbers

  function Pow10(n: nat): (p: nat)
    ensures p >= 1
  {
    if n == 0 then 1 else 10 * Pow10(n - 1)
  }

  /** The decimal m / 10^e. */
  datatype Decimal = Decimal(m: int, e: nat)

  /** No trailing zero digit after the decimal point: one representation per value. */
  predicate IsNormal(d: Decimal) {
    d.e == 0 || d.m % 10 != 0
  }

  type NormalDecimal = d: Decimal | IsNormal(d) witness Decimal(0, 0)

  function RealOf(d: Decimal): real {
    d.m as real / Pow10(d.e) as real
  }

  /** m / 10^e with trailing zeros of the fraction removed. */
  function Normalize(m: int, e: nat): (d: NormalDecimal)
    ensures RealOf(d) == m as real / Pow10(e) as real
    ensures (d.m > 0 <==> m > 0) && (d.m == 0 <==> m == 0)
    decreases e
  {
    if e > 0 && m % 10 == 0 then
      DropTrailingZero(m, e);
      Normalize(m / 10, e - 1)
    else
      Decimal(m, e)
  }

  /** Removing a trailing zero from both the digits and the exponent keeps the value and the sign. */
  lemma DropTrailingZero(m: int, e: nat)
    requires e > 0 && m % 10 == 0
    ensures (m / 10) as real / Pow10(e - 1) as real == m as real / Pow10(e) as real
    ensures (m / 10 > 0 <==> m > 0) && (m / 10 == 0 <==> m == 0)
  {
    var q := m / 10;
    assert m == q * 10;
    CastProduct(q, 10);
    CastProduct(10, Pow10(e - 1));
    CancelFactor(q as real, 10.0, Pow10(e - 1) as real);
  }

  /** A JavaScript number. */
  datatype Number = NaN | Infinity(negative: bool) | Finite(d: NormalDecimal)

  function FromInt(i: int): (n: Number)
    ensures n.Finite? && RealOf(n.d) == i as real
  {
    Finite(Decimal(i, 0))
  }

  const Zero: Number := FromInt(0)

  /** `n >= 0` */
  predicate AtLeastZero(n: Number) {
    match n
    case NaN => false
    case Infinity(neg) => !neg
    case Finite(d) => d.m >= 0
  }

  /** `n > 0` */
  predicate IsPositive(n: Number) {
    match n
    case NaN => false
    case Infinity(neg) => !neg
    case Finite(d) => d.m > 0
  }

  function Negate(n: Number): Number {
    match n
    case NaN => NaN
    case Infinity(neg) => Infinity(!neg)
    case Finite(d) => Finite(Normalize(-d.m, d.e))
  }

  function Max(a: nat, b: nat): nat {
    if a < b then b else a
  }

  /** `a + b` on numbers. */
  function Add(a: Number, b: Number): Number {
    match (a, b)
    case (NaN, _) => NaN
    case (_, NaN) => NaN
    case (Infinity(x), Infinity(y)) => if x == y then a else NaN
    case (Infinity(_), _) => a
    case (_, Infinity(_)) => b
    case (Finite(x), Finite(y)) =>
      var e := Max(x.e, y.e);
      Finite(Normalize(x.m * Pow10(e - x.e) + y.m * Pow10(e - y.e), e))
  }

  /** `a - b` on numbers. */
  function Subtract(a: Number, b: Number): Number {
    Add(a, Negate(b))
  }

  /** `a * b` on numbers. */
  function Multiply(a: Number, b: Number): Number {
    match (a, b)
    case (NaN, _) => NaN
    case (_, NaN) => NaN
    case (Infinity(x), Finite(d)) => if d.m == 0 then NaN else Infinity(x != (d.m < 0))
    case (Finite(d), Infinity(y)) => if d.m == 0 then NaN else Infinity(y != (d.m < 0))
    case (Infinity(x), Infinity(y)) => Infinity(x != y)
    case (Finite(x), Finite(y)) => Finite(Normalize(x.m * y.m, x.e + y.e))
  }

  // ---------------------------------------------------------------------------
  // Values

  /** A plain object's own enumerable properties. */
  type Props = map<string, Value>

  datatype Value =
    | Undefined
    | Null
    | Bool(b: bool)
    | Num(n: Number)
    | Str(s: string)
    | Obj(props: Props)
    | Arr(elems: seq<Value>)

  predicate IsNullish(v: Value) {
    v.Undefined? || v.Null?
  }

  /** The value a failed `x.key` on a nullish `x`, or a call of a non-function, throws. */
  const TypeError: Value := Obj(map["name" := Str("TypeError")])

  /** `Boolean(v)`: JavaScript's truthiness. */
  predicate Truthy(v: Value) {
    match v
    case Undefined => false
    case Null => false
    case Bool(b) => b
    case Num(n) => n.Infinity? || (n.Finite? && n.d.m != 0)
    case Str(s) => s != ""
    case Obj(_) => true
    case Arr(_) => true
  }

  /** `a || b` */
  function Or(a: Value, b: Value): Value {
    if Truthy(a) then a else b
  }

  /** `v?.key`: a property read through optional chaining (array and string properties are not modelled). */
  function Get(v: Value, key: string): Value {
    match v
    case Obj(props) => if key in props then props[key] else Undefined
    case _ => Undefined
  }

  /** The properties `{...v}` copies (spreading an array or a string is not modelled). */
  function Spread(v: Value): Props {
    if v.Obj? then v.props else map[]
  }

  /** `v === n` for a number n: NaN equals nothing. */
  predicate StrictEqualsNumber(v: Value, n: Number) {
    v.Num? && v.n == n && !n.NaN?
  }

  // ---------------------------------------------------------------------------
  // String conversion

  predicate IsDigit(c: char) {
    '0' <= c <= '9'
  }

  predicate AllDigits(s: string) {
    forall i :: 0 <= i < |s| ==> IsDigit(s[i])
  }

  function DigitChar(n: nat): (c: char)
    requires n < 10
    ensures IsDigit(c)
  {
    ('0' as int + n) as char
  }

  function DigitValue(c: char): nat
    requires IsDigit(c)
  {
    c as int - '0' as int
  }

  /** The value of a string of decimal digits. */
  function DigitsValue(s: string): nat
    requires AllDigits(s)
  {
    if s == [] then 0 else 10 * DigitsValue(s[..|s| - 1]) + DigitValue(s[|s| - 1])
  }

  /** The decimal digits of n without leading zeros ("0" for zero). */
  function NatToDigits(n: nat): (s: string)
    ensures |s| >= 1 && AllDigits(s)
    ensures DigitsValue(s) == n
    ensures n > 0 ==> s[0] != '0'
    decreases n
  {
    if n < 10 then [DigitChar(n)]
    else
      var s := NatToDigits(n / 10) + [DigitChar(n % 10)];
      assert s[..|s| - 1] == NatToDigits(n / 10);
      s
  }

  function Zeros(n: nat): (s: string)
    ensures |s| == n && AllDigits(s)
  {
    if n == 0 then "" else Zeros(n - 1) + "0"
  }

  function TrailingZeros(m: nat): nat
    requires m > 0
  {
    if m % 10 == 0 then 1 + TrailingZeros(m / 10) else 0
  }

  /** Number::toString for the positive number m / 10^e. */
  function PositiveToString(m: nat, e: nat): string
    requires m > 0
  {
    var t := TrailingZeros(m);
    var digits := NatToDigits(m / Pow10(t));
    var k := |digits|;
    var n := k + t - e;
    if k <= n <= 21 then digits + Zeros(n - k)
    else if 0 < n <= 21 then digits[..n] + "." + digits[n..]
    else if -6 < n <= 0 then "0." + Zeros(-n) + digits
    else
      var exponent := (if n - 1 >= 0 then "+" else "-") + NatToDigits(if n - 1 >= 0 then n - 1 else 1 - n);
      if k == 1 then digits + "e" + exponent
      else digits[..1] + "." + digits[1..] + "e" + exponent
  }

  /** Number::toString(n) in base 10. */
  function NumberToString(n: Number): string {
    match n
    case NaN => "NaN"
    case Infinity(neg) => if neg then "-Infinity" else "Infinity"
    case Finite(d) =>
      if d.m == 0 then "0"
      else if d.m < 0 then "-" + PositiveToString(-d.m, d.e)
      else PositiveToString(d.m, d.e)
  }

  /** `String(v)`, as a template literal `${v}` converts v. */
  function ToString(v: Value): string
    decreases v, 1
  {
    match v
    case Undefined => "undefined"
    case Null => "null"
    case Bool(b) => if b then "true" else "false"
    case Num(n) => NumberToString(n)
    case Str(s) => s
    case Obj(_) => "[object Object]"
    case Arr(_) => JoinFrom(v, 0, ",")
  }

  /** `a.join(sep)` from index i on: nullish elements print as "". */
  function JoinFrom(a: Value, i: nat, sep: string): string
    requires a.Arr?
    decreases a, 0, |a.elems| - i
  {
    if i >= |a.elems| then ""
    else
      var x := a.elems[i];
      (if IsNullish(x) then "" else ToString(x))
      + (if i + 1 < |a.elems| then sep else "")
      + JoinFrom(a, i + 1, sep)
  }

  /** `a.join()` */
  function Join(a: Value): string
    requires a.Arr?
  {
    JoinFrom(a, 0, ",")
  }

  /** `v?.toString()` */
  function OptionalToString(v: Value): Value {
    if IsNullish(v) then Undefined else Str(ToString(v))
  }

  // ---------------------------------------------------------------------------
  // Number conversion

  /** WhiteSpace and LineTerminator code points, which `Number` and `parseFloat` skip. */
  predicate IsSpace(c: char) {
    c == '\t' || c == '\n' || c == '\U{B}' || c == '\U{C}' || c == '\r' || c == ' '
    || c == '\U{A0}' || c == '\U{1680}' || ('\U{2000}' <= c <= '\U{200A}')
    || c == '\U{2028}' || c == '\U{2029}' || c == '\U{202F}' || c == '\U{205F}'
    || c == '\U{3000}' || c == '\U{FEFF}'
  }

  function TrimStart(s: string): (t: string)
    ensures |t| <= |s|
    ensures t == s[|s| - |t|..]
    ensures t != "" ==> !IsSpace(t[0])
  {
    if s != "" && IsSpace(s[0]) then TrimStart(s[1..]) else s
  }

  function TrimEnd(s: string): (t: string)
    ensures |t| <= |s|
    ensures t == s[..|t|]
    ensures t != "" ==> !IsSpace(t[|t| - 1])
  {
    if s != "" && IsSpace(s[|s| - 1]) then TrimEnd(s[..|s| - 1]) else s
  }

  function Trim(s: string): string {
    TrimEnd(TrimStart(s))
  }

  /** The number of decimal digits s starts with. */
  function LeadingDigits(s: string): (k: nat)
    ensures k <= |s| && AllDigits(s[..k])
    ensures k < |s| ==> !IsDigit(s[k])
  {
    if s != "" && IsDigit(s[0]) then
      var k := 1 + LeadingDigits(s[1..]);
      assert s[..k] == [s[0]] + s[1..][..k - 1];
      k
    else 0
  }

  /** An optional exponent part `e[+-]digits`: its value and its length (0 when absent). */
  function ParseExponent(w: string): (r: (int, nat))
    ensures r.1 <= |w|
  {
    if |w| >= 2 && (w[0] == 'e' || w[0] == 'E') then
      var signLen := if w[1] == '+' || w[1] == '-' then 1 else 0;
      var ds := w[1 + signLen..];
      var k := LeadingDigits(ds);
      if k == 0 then (0, 0)
      else
        var x: int := DigitsValue(ds[..k]);
        (if signLen == 1 && w[1] == '-' then -x else x, 1 + signLen + k)
    else (0, 0)
  }

  /** m * 10^k */
  function Scale(m: int, k: int): NormalDecimal {
    if k >= 0 then Normalize(m * Pow10(k), 0) else Normalize(m, -k)
  }

  /**
   * The longest prefix of t that is a StrDecimalLiteral (an optional sign, then
   * "Infinity" or digits with an optional fraction and an optional exponent):
   * its value and its length.
   */
  function ParseDecimalPrefix(t: string): (r: Option<(Number, nat)>)
    ensures r.Some? ==> 0 < r.value.1 <= |t|
  {
    var signLen := if |t| > 0 && (t[0] == '+' || t[0] == '-') then 1 else 0;
    var negative := signLen == 1 && t[0] == '-';
    var u := t[signLen..];
    if |u| >= 8 && u[..8] == "Infinity" then Some((Infinity(negative), signLen + 8))
    else
      var i := LeadingDigits(u);
      var hasDot := i < |u| && u[i] == '.';
      var j := if hasDot then LeadingDigits(u[i + 1..]) else 0;
      if i + j == 0 then None
      else
        var p := if hasDot then i + 1 + j else i;
        assert hasDot ==> u[i + 1..p] == u[i + 1..][..j];
        var mantissa := u[..i] + (if hasDot then u[i + 1..p] else "");
        assert AllDigits(mantissa);
        var exponent := ParseExponent(u[p..]);
        var m: int := DigitsValue(mantissa);
        Some((Finite(Scale(if negative then -m else m, exponent.0 - j)), signLen + p + exponent.1))
  }

  /** The value of c as a digit in the given radix (2, 8 or 16). */
  function RadixDigit(c: char, radix: nat): Option<nat> {
    var v :=
      if '0' <= c <= '9' then c as int - '0' as int
      else if 'a' <= c <= 'f' then c as int - 'a' as int + 10
      else if 'A' <= c <= 'F' then c as int - 'A' as int + 10
      else 16;
    if v < radix then Some(v) else None
  }

  function RadixDigitsValue(s: string, radix: nat): Option<nat> {
    if s == [] then Some(0)
    else
      match (RadixDigitsValue(s[..|s| - 1], radix), RadixDigit(s[|s| - 1], radix))
      case (Some(high), Some(low)) => Some(high * radix + low)
      case _ => None
  }

  /** `0x…`, `0o…` and `0b…` literals. */
  function NonDecimalLiteral(marker: char, digits: string): Number {
    var radix := if marker == 'x' || marker == 'X' then 16 else if marker == 'o' || marker == 'O' then 8 else 2;
    if digits == [] then NaN
    else match RadixDigitsValue(digits, radix)
      case Some(v) => FromInt(v)
      case None => NaN
  }

  predicate IsRadixMarker(c: char) {
    c == 'x' || c == 'X' || c == 'o' || c == 'O' || c == 'b' || c == 'B'
  }

  /** StringToNumber: the whole trimmed string must be a numeric literal; blank is 0. */
  function StringToNumber(s: string): Number {
    var t := Trim(s);
    if t == "" then Zero
    else if |t| >= 2 && t[0] == '0' && IsRadixMarker(t[1]) then NonDecimalLiteral(t[1], t[2..])
    else
      match ParseDecimalPrefix(t)
      case Some((n, k)) => if k == |t| then n else NaN
      case None => NaN
  }

  /** `Number(v)` (objects are taken to have the default valueOf and toString). */
  function ToNumber(v: Value): Number {
    match v
    case Undefined => NaN
    case Null => Zero
    case Bool(b) => if b then FromInt(1) else Zero
    case Num(n) => n
    case Str(s) => StringToNumber(s)
    case Obj(_) => NaN
    case Arr(_) => StringToNumber(ToString(v))
  }

  /** `parseFloat(v)`: the longest numeric prefix of the string, NaN when there is none. */
  function ParseFloat(v: Value): Number {
    match ParseDecimalPrefix(TrimStart(ToString(v)))
    case Some((n, _)) => n
    case None => NaN
  }

  /** `Number(v) || 0`, as a number. */
  function NumberOrZero(v: Value): Number {
    var n := ToNumber(v);
    if Truthy(Num(n)) then n else Zero
  }

  /** `Number(v) || 0` never yields NaN: undefined or NaN gives 0, and any other number is kept. */
  lemma NumberOrZeroIsNumber(v: Value)
    ensures !NumberOrZero(v).NaN?
    ensures ToNumber(v).NaN? ==> NumberOrZero(v) == Zero
    ensures !ToNumber(v).NaN? ==> NumberOrZero(v) == ToNumber(v)
  {
    var n := ToNumber(v);
    if n.Finite? && !Truthy(Num(n)) {
      assert n.d.m == 0;
      assert n.d == Decimal(0, 0);
    }
  }

  // ---------------------------------------------------------------------------
  // Arrays

  predicate NoNullish(s: seq<Value>) {
    forall i :: 0 <= i < |s| ==> !IsNullish(s[i])
  }

  /** `s.filter(keep)` for a callback that does not throw. */
  function Filter(s: seq<Value>, keep: Value -> bool): (r: seq<Value>)
    ensures |r| <= |s|
    ensures forall x :: x in r <==> x in s && keep(x)
  {
    if s == [] then [] else (if keep(s[0]) then [s[0]] else []) + Filter(s[1..], keep)
  }

  /** Filtering keeps relative order: it distributes over concatenation. */
  lemma {:induction false} FilterConcat(a: seq<Value>, b: seq<Value>, keep: Value -> bool)
    ensures Filter(a + b, keep) == Filter(a, keep) + Filter(b, keep)
  {
    if a == [] {
      assert a + b == b;
    } else {
      assert (a + b)[0] == a[0];
      assert (a + b)[1..] == a[1..] + b;
      FilterConcat(a[1..], b, keep);
    }
  }

  /** Filtering a filtered sequence again changes nothing. */
  lemma {:induction false} FilterIdempotent(s: seq<Value>, keep: Value -> bool)
    ensures Filter(Filter(s, keep), keep) == Filter(s, keep)
  {
    if s != [] {
      FilterIdempotent(s[1..], keep);
      if keep(s[0]) {
        var r := Filter(s, keep);
        assert r == [s[0]] + Filter(s[1..], keep);
        assert r[0] == s[0] && r[1..] == Filter(s[1..], keep);
        assert Filter(r, keep) == [r[0]] + Filter(r[1..], keep);
        assert Filter(r[1..], keep) == Filter(s[1..], keep);
      } else {
        assert Filter(s, keep) == Filter(s[1..], keep);
      }
    }
  }

  /** A filter returns its input unchanged exactly when every element passes. */
  lemma {:induction false} FilterKeepsAll(s: seq<Value>, keep: Value -> bool)
    ensures Filter(s, keep) == s <==> forall i :: 0 <= i < |s| ==> keep(s[i])
  {
    if forall i :: 0 <= i < |s| ==> keep(s[i]) {
      if s != [] {
        assert forall i :: 0 <= i < |s[1..]| ==> keep(s[1..][i]) by {
          forall i | 0 <= i < |s[1..]| ensures keep(s[1..][i]) { assert s[1..][i] == s[i + 1]; }
        }
        FilterKeepsAll(s[1..], keep);
      }
    } else {
      var i :| 0 <= i < |s| && !keep(s[i]);
      assert s[i] in s;
      assert s[i] !in Filter(s, keep);
    }
  }

  // ---------------------------------------------------------------------------
  // Arithmetic agrees with the real numbers

  lemma {:induction false} Pow10Add(i: nat, j: nat)
    ensures Pow10(i + j) == Pow10(i) * Pow10(j)
  {
    if i > 0 {
      Pow10Add(i - 1, j);
    }
  }

  lemma PositiveMeansRealPositive(d: Decimal)
    ensures d.m > 0 <==> RealOf(d) > 0.0
    ensures d.m >= 0 <==> RealOf(d) >= 0.0
  {
    var p := Pow10(d.e) as real;
    assert RealOf(d) * p == d.m as real;
  }

  /** m / 10^e == (m * 10^k) / 10^(e + k) */
  lemma ScaleUp(m: int, e: nat, k: nat)
    ensures (m * Pow10(k)) as real / Pow10(e + k) as real == m as real / Pow10(e) as real
  {
    Pow10Add(k, e);
    CastProduct(m, Pow10(k));
    CastProduct(Pow10(k), Pow10(e));
    CancelFactor(m as real, Pow10(k) as real, Pow10(e) as real);
  }

  lemma CancelFactor(a: real, pk: real, pe: real)
    requires pk > 0.0 && pe > 0.0
    ensures (a * pk) / (pk * pe) == a / pe
  {
  }

  /** Finite addition is exact. */
  lemma AddIsExact(x: NormalDecimal, y: NormalDecimal)
    ensures Add(Finite(x), Finite(y)).Finite?
    ensures RealOf(Add(Finite(x), Finite(y)).d) == RealOf(x) + RealOf(y)
  {
    var e := Max(x.e, y.e);
    var a := x.m * Pow10(e - x.e);
    var b := y.m * Pow10(e - y.e);
    assert Add(Finite(x), Finite(y)) == Finite(Normalize(a + b, e));
    ScaleUp(x.m, x.e, e - x.e);
    ScaleUp(y.m, y.e, e - y.e);
    SumQuotient(a as real, b as real, Pow10(e) as real);
  }

  lemma SumQuotient(a: real, b: real, p: real)
    requires p > 0.0
    ensures (a + b) / p == a / p + b / p
  {
  }

  lemma NegateIsExact(y: NormalDecimal)
    ensures Negate(Finite(y)).Finite? && RealOf(Negate(Finite(y)).d) == -RealOf(y)
  {
    assert Negate(Finite(y)) == Finite(Normalize(-y.m, y.e));
    NegatedQuotient(y.m as real, Pow10(y.e) as real);
  }

  lemma NegatedQuotient(a: real, p: real)
    requires p > 0.0
    ensures (-a) / p == -(a / p)
  {
  }

  /** `a - b > 0` holds of finite numbers exactly when a is the larger. */
  lemma SubtractPositive(a: NormalDecimal, b: NormalDecimal)
    ensures IsPositive(Subtract(Finite(a), Finite(b))) <==> RealOf(a) > RealOf(b)
  {
    NegateIsExact(b);
    var nb := Negate(Finite(b)).d;
    AddIsExact(a, nb);
    PositiveMeansRealPositive(Add(Finite(a), Finite(nb)).d);
  }

  /** `a * b` is NaN when a factor is NaN and exact when both are finite. */
  lemma MultiplyNumbers(a: Number, b: Number)
    ensures a.NaN? || b.NaN? ==> Multiply(a, b).NaN?
    ensures a.Finite? && b.Finite? ==> Multiply(a, b).Finite? && RealOf(Multiply(a, b).d) == RealOf(a.d) * RealOf(b.d)
  {
    match (a, b)
    case (Finite(x), Finite(y)) =>
      MultiplyIsExact(x, y);
    case (NaN, _) =>
      assert Multiply(a, b) == NaN;
    case (_, NaN) =>
      assert Multiply(a, b) == NaN;
    case _ =>
  }

  /** Finite multiplication is exact. */
  lemma MultiplyIsExact(x: NormalDecimal, y: NormalDecimal)
    ensures Multiply(Finite(x), Finite(y)).Finite?
    ensures RealOf(Multiply(Finite(x), Finite(y)).d) == RealOf(x) * RealOf(y)
  {
    var d := Normalize(x.m * y.m, x.e + y.e);
    assert Multiply(Finite(x), Finite(y)) == Finite(d);
    ProductOfDecimals(x, y);
  }

  lemma ProductOfDecimals(x: Decimal, y: Decimal)
    ensures (x.m * y.m) as real / Pow10(x.e + y.e) as real == RealOf(x) * RealOf(y)
  {
    Pow10Add(x.e, y.e);
    QuotientOfProducts(x.m, y.m, Pow10(x.e), Pow10(y.e));
  }

  lemma QuotientOfProducts(i: int, j: int, p: nat, q: nat)
    requires p > 0 && q > 0
    ensures (i * j) as real / (p * q) as real == (i as real / p as real) * (j as real / q as real)
  {
    CastProduct(i, j);
    CastProduct(p, q);
    QuotientProduct(i as real, p as real, j as real, q as real);
  }

  lemma CastProduct(i: int, j: int)
    ensures (i * j) as real == i as real * j as real
  {
  }

  lemma QuotientProduct(a: real, p: real, b: real, q: real)
    requires p > 0.0 && q > 0.0
    ensures (a * b) / (p * q) == (a / p) * (b / q)
  {
  }

  // ---------------------------------------------------------------------------
  // Integers print as their decimal digits

  lemma {:induction false} DigitsTimesPow10(m: nat, t: nat)
    requires m > 0
    ensures NatToDigits(m * Pow10(t)) == NatToDigits(m) + Zeros(t)
  {
    if t > 0 {
      DigitsTimesPow10(m, t - 1);
      var q := m * Pow10(t - 1);
      ShiftFactor(m, Pow10(t - 1));
      assert q * 10 >= 10 && (q * 10) / 10 == q && (q * 10) % 10 == 0;
    }
  }

  lemma {:induction false} StripTrailingZeros(m: nat)
    requires m > 0
    ensures m / Pow10(TrailingZeros(m)) > 0
    ensures m == (m / Pow10(TrailingZeros(m))) * Pow10(TrailingZeros(m))
    decreases m
  {
    if m % 10 == 0 {
      var q := m / 10;
      StripTrailingZeros(q);
      var t := TrailingZeros(q);
      var r := q / Pow10(t);
      ShiftFactor(r, Pow10(t));
      assert m == r * Pow10(t + 1);
      DivideMultiple(r, Pow10(t + 1));
    }
  }

  lemma {:induction false} DigitCountBound(n: nat, j: nat)
    requires n < Pow10(j)
    ensures |NatToDigits(n)| <= j || (n == 0 && j == 0)
    decreases j
  {
    if n >= 10 {
      assert j > 0;
      DigitCountBound(n / 10, j - 1);
    }
  }

  lemma ShiftFactor(m: int, p: int)
    ensures m * (10 * p) == (m * p) * 10
  {
  }

  lemma DivideMultiple(r: int, p: int)
    requires p > 0
    ensures (r * p) / p == r
  {
    var q, rem := (r * p) / p, (r * p) % p;
    assert r * p == q * p + rem && 0 <= rem < p;
    var x := q - r;
    assert x * p == -rem by {
      assert q * p - r * p == (q - r) * p;
    }
  }

  /** A non-negative integer below 10^21 prints as its decimal digits, without exponent or point. */
  lemma IntegerToString(n: nat)
    requires n < Pow10(21)
    ensures NumberToString(FromInt(n)) == NatToDigits(n)
  {
    if n > 0 {
      var t := TrailingZeros(n);
      StripTrailingZeros(n);
      var m := n / Pow10(t);
      DigitsTimesPow10(m, t);
      DigitCountBound(n, 21);
      assert |NatToDigits(n)| == |NatToDigits(m)| + t;
    }
  }
}
