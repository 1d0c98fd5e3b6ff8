/** The JavaScript values that flow through the application: spreadsheet
    cells, chart data points and object fields, together with the coercions
    the code applies to them (String, Number, parseFloat, `??`, `||`, `+`). */
module JsValues {
  import opened Strings

  datatype Option<T> = None | Some(value: T)

  /** A JavaScript number: a real value or NaN. Infinities, -0 and the
      rounding of IEEE doubles are not represented. */
  datatype Number = Real(v: real) | NaN

  /** An object `{x, y}` of two numbers, as a scatter point is. */
  datatype XY = XY(x: Number, y: Number)

  /** A JavaScript value; `Undefined` stands for both undefined and null. */
  datatype Value = Num(n: Number) | Str(s: string) | Bool(b: bool) | Undefined | Point(xy: XY)

  /** One property of a plain object. */
  datatype Entry = Entry(key: string, value: Value)

  /** A plain object (a spreadsheet row) as its properties in key order. */
  type Row = seq<Entry>

  const Zero: Value := Num(Real(0.0))

  /** The column names of a row, in order (Object.keys). */
  function Keys(row: Row): (ks: seq<string>)
    ensures |ks| == |row|
    ensures forall i :: 0 <= i < |row| ==> ks[i] == row[i].key
  {
    seq(|row|, i requires 0 <= i < |row| => row[i].key)
  }

  /** Property access `row[key]`: the value of the first property named key,
      or undefined when there is none. */
  function Get(row: Row, key: string): (v: Value)
    ensures key !in Keys(row) ==> v == Undefined
  {
    if row == [] then Undefined
    else if row[0].key == key then row[0].value
    else
      Get(row[1..], key)
  }

  /** Property access finds the first property with the key: one at index
      i, with no property of that name before it, supplies the value. */
  lemma {:induction false} GetFirstMatch(row: Row, key: string, i: nat)
    requires i < |row| && row[i].key == key && key !in Keys(row[..i])
    ensures Get(row, key) == row[i].value
  {
    if i > 0 {
      assert Keys(row[..i])[0] == row[0].key;
      assert Keys(row[1..][..i - 1]) == Keys(row[..i])[1..];
      GetFirstMatch(row[1..], key, i - 1);
    }
  }

  /** Reading a property of an object whose first property is e. */
  lemma GetCons(e: Entry, t: Row, k: string)
    ensures Get([e] + t, k) == if e.key == k then e.value else Get(t, k)
  {
    assert ([e] + t)[0] == e && ([e] + t)[1..] == t;
  }

  /** The keys of an object whose first property is e. */
  lemma KeysCons(e: Entry, t: Row)
    ensures Keys([e] + t) == [e.key] + Keys(t)
  {
    assert ([e] + t)[1..] == t;
  }

  /** Reading an object whose rest was updated behind a property with
      another key. */
  lemma PutBehind(e: Entry, rest: Row, tail: Row, key: string, v: Value)
    requires e.key != key && Get(tail, key) == v
    requires forall k :: k != key ==> Get(tail, k) == Get(rest, k)
    ensures Get([e] + tail, key) == v
    ensures forall k :: k != key ==> Get([e] + tail, k) == Get([e] + rest, k)
  {
    GetCons(e, tail, key);
    forall k | k != key ensures Get([e] + tail, k) == Get([e] + rest, k) {
      GetCons(e, tail, k);
      GetCons(e, rest, k);
    }
  }

  /** The keys of an object whose rest was updated behind a property with
      another key. */
  lemma PutBehindKeys(e: Entry, rest: Row, tail: Row, key: string)
    requires e.key != key
    requires key in Keys(rest) ==> Keys(tail) == Keys(rest)
    requires key !in Keys(rest) ==> Keys(tail) == Keys(rest) + [key]
    ensures key in Keys([e] + rest) ==> Keys([e] + tail) == Keys([e] + rest)
    ensures key !in Keys([e] + rest) ==> Keys([e] + tail) == Keys([e] + rest) + [key]
  {
    KeysCons(e, tail);
    KeysCons(e, rest);
    assert key in Keys([e] + rest) <==> key in Keys(rest);
    if key !in Keys(rest) {
      assert [e.key] + (Keys(rest) + [key]) == ([e.key] + Keys(rest)) + [key];
    }
  }

  /** Overwriting the first property of an object. */
  lemma PutFirst(e: Entry, rest: Row, v: Value)
    ensures Get([Entry(e.key, v)] + rest, e.key) == v
    ensures forall k :: k != e.key ==> Get([Entry(e.key, v)] + rest, k) == Get([e] + rest, k)
    ensures Keys([Entry(e.key, v)] + rest) == Keys([e] + rest)
  {
    GetCons(Entry(e.key, v), rest, e.key);
    forall k | k != e.key ensures Get([Entry(e.key, v)] + rest, k) == Get([e] + rest, k) {
      GetCons(Entry(e.key, v), rest, k);
      GetCons(e, rest, k);
    }
    KeysCons(Entry(e.key, v), rest);
    KeysCons(e, rest);
  }

  /** Assignment `row[key] = v`: an existing property keeps its place and
      takes the new value, a new one is added at the end. */
  function Put(row: Row, key: string, v: Value): (r: Row)
    ensures Get(r, key) == v
    ensures forall k :: k != key ==> Get(r, k) == Get(row, k)
    ensures key in Keys(row) ==> Keys(r) == Keys(row)
    ensures key !in Keys(row) ==> Keys(r) == Keys(row) + [key]
  {
    if row == [] then [Entry(key, v)]
    else
      assert row == [row[0]] + row[1..];
      if row[0].key == key then
        PutFirst(row[0], row[1..], v);
        [Entry(key, v)] + row[1..]
      else
        var tail := Put(row[1..], key, v);
        PutBehind(row[0], row[1..], tail, key, v);
        PutBehindKeys(row[0], row[1..], tail, key);
        [row[0]] + tail
  }

  /** The `delete row[key]` statement: every property named key is removed. */
  function Delete(row: Row, key: string): (r: Row)
    ensures key !in Keys(r)
    ensures forall k :: k != key ==> Get(r, k) == Get(row, k)
    ensures forall k :: k in Keys(r) ==> k in Keys(row)
  {
    if row == [] then []
    else if row[0].key == key then Delete(row[1..], key)
    else
      var tail := Delete(row[1..], key);
      var r := [row[0]] + tail;
      assert r[0] == row[0] && r[1..] == tail;
      assert Keys(r) == [row[0].key] + Keys(tail);
      r
  }

  /** `v ?? d`. */
  function Nullish(v: Value, d: Value): (r: Value)
    ensures v != Undefined ==> r == v
    ensures v == Undefined ==> r == d
  {
    if v == Undefined then d else v
  }

  /** `typeof v === "number"`; true for NaN as well. */
  predicate IsNumber(v: Value) {
    v.Num?
  }

  /** JavaScript truthiness: false, 0, NaN, "" and undefined are falsy. */
  predicate Truthy(v: Value) {
    match v
    case Num(n) => n != NaN && n != Real(0.0)
    case Str(s) => s != ""
    case Bool(b) => b
    case Undefined => false
    case Point(_) => true
  }

  // ---- String(v) ----

  /** The fractional digits of f (0 <= f < 1), stopping after at most fuel digits. */
  function FractionDigits(f: real, fuel: nat): (r: string)
    requires 0.0 <= f < 1.0
    ensures AllDigits(r) && |r| <= fuel
    decreases fuel
  {
    if f == 0.0 || fuel == 0 then ""
    else
      var d := (f * 10.0).Floor;
      [DigitChar(d)] + FractionDigits(f * 10.0 - d as real, fuel - 1)
  }

  /** The decimal form of a non-negative real: integer digits, then a point
      and up to twenty fractional digits when the value is not integral. */
  function Magnitude(r: real): string
    requires r >= 0.0
  {
    var i := r.Floor;
    var f := r - i as real;
    NatToDecimal(i) + (if f == 0.0 then "" else "." + FractionDigits(f, 20))
  }

  /** Number.prototype.toString for the numbers the model represents. */
  function NumberToString(n: Number): string {
    match n
    case NaN => "NaN"
    case Real(r) => if r < 0.0 then "-" + Magnitude(-r) else Magnitude(r)
  }

  /** String(v). */
  function ToString(v: Value): string {
    match v
    case Num(n) => NumberToString(n)
    case Str(s) => s
    case Bool(b) => if b then "true" else "false"
    case Undefined => "undefined"
    case Point(_) => "[object Object]"
  }

  /** An integral number prints as its plain decimal numeral. */
  lemma IntegralNumberToString(k: nat)
    ensures NumberToString(Real(k as real)) == NatToDecimal(k)
  {
  }

  // ---- Number(v) and parseFloat(v) ----

  /** The longest decimal literal at the start of s (optional sign, digits,
      optional point and digits, at least one digit): its value and how many
      characters it takes. */
  function DecimalPrefix(s: string): (r: Option<(real, nat)>)
    ensures r.Some? ==> 0 < r.value.1 <= |s|
  {
    var sign := if |s| > 0 && (s[0] == '+' || s[0] == '-') then 1 else 0;
    match UnsignedDecimal(s[sign..])
    case None => None
    case Some((mag, len)) => Some((if sign == 1 && s[0] == '-' then -mag else mag, sign + len))
  }

  /** The unsigned part of a decimal literal: digits, then optionally a
      point and more digits, with at least one digit in all. */
  function UnsignedDecimal(body: string): (r: Option<(real, nat)>)
    ensures r.Some? ==> 0 < r.value.1 <= |body|
  {
    var a := DigitRun(body);
    var dot := a < |body| && body[a] == '.';
    var rest := if dot then body[a + 1..] else "";
    var b := DigitRun(rest);
    if a + b == 0 then None
    else
      var whole := DecimalValue(body[..a]) as real;
      var frac := if b > 0 then DecimalValue(rest[..b]) as real / Pow10(b) as real else 0.0;
      Some((whole + frac, a + (if dot then 1 + b else 0)))
  }

  /** Number(s) for a string: white space around a decimal literal is
      ignored, an empty or blank string is 0, anything else is NaN. */
  function StringToNumber(s: string): (n: Number)
    ensures Trim(s) == "" ==> n == Real(0.0)
  {
    var t := Trim(s);
    if t == "" then Real(0.0)
    else match DecimalPrefix(t)
      case Some((v, len)) => if len == |t| then Real(v) else NaN
      case None => NaN
  }

  /** Number(v). */
  function ToNumber(v: Value): Number {
    match v
    case Num(n) => n
    case Str(s) => StringToNumber(s)
    case Bool(b) => Real(if b then 1.0 else 0.0)
    case Undefined => NaN
    case Point(_) => NaN
  }

  /** parseFloat(v): the longest decimal literal at the start of String(v)
      after leading white space, or NaN. For a number this is the number
      itself, since String of a double reads back as the same double. */
  function ParseFloat(v: Value): Number {
    match v
    case Num(n) => n
    case _ =>
      match DecimalPrefix(TrimStart(ToString(v)))
      case Some((r, _)) => Real(r)
      case None => NaN
  }

  /** A numeral read by Number() gives back its value. */
  lemma {:induction false} NumberOfNumeral(n: nat)
    ensures StringToNumber(NatToDecimal(n)) == Real(n as real)
  {
    var s := NatToDecimal(n);
    assert IsDigit(s[0]) && IsDigit(s[|s| - 1]);
    TrimUnpadded(s);
    DecimalPrefixOfDigits(s);
    DecimalRoundTrip(n);
    var p := DecimalPrefix(s);
    assert p == Some((n as real, |s|));
    assert StringToNumber(s) == (match p case Some((v, len)) => if len == |s| then Real(v) else NaN case None => NaN);
  }

  /** A non-empty run of digits is read whole, as the number it denotes. */
  lemma DecimalPrefixOfDigits(s: string)
    requires |s| > 0 && AllDigits(s)
    ensures DecimalPrefix(s) == Some((DecimalValue(s) as real, |s|))
  {
    UnsignedDecimalOfDigits(s);
    assert !(s[0] == '+' || s[0] == '-') by {
      assert IsDigit(s[0]);
    }
    assert s[0..] == s;
  }

  lemma UnsignedDecimalOfDigits(s: string)
    requires |s| > 0 && AllDigits(s)
    ensures UnsignedDecimal(s) == Some((DecimalValue(s) as real, |s|))
  {
    assert s[..|s|] == s;
    DigitRunOfDigits(s);
    assert DigitRun("") == 0;
  }

  /** `Number(v) || 0` and `parseFloat(v) || 0`: NaN becomes 0. */
  function OrZero(n: Number): (r: real)
    ensures n.Real? ==> r == n.v
    ensures n == NaN ==> r == 0.0
  {
    if n.NaN? then 0.0 else n.v
  }

  /** parseInt(s) without a radix: leading white space and an optional sign
      are skipped, then "0x" or "0X" introduces hexadecimal digits and
      otherwise decimal digits are read as far as they go; None stands for
      NaN, when no digit is found. `undefined` reads as the string
      "undefined", which has no digits. */
  function ParseInt(s: Option<string>): (r: Option<int>)
  {
    if s.None? then None
    else
      var t := TrimStart(s.value);
      var neg := |t| > 0 && t[0] == '-';
      var u := if |t| > 0 && (t[0] == '-' || t[0] == '+') then t[1..] else t;
      match IntMagnitude(u)
      case None => None
      case Some(m) => Some(if neg then -(m as int) else m as int)
  }

  /** The unsigned part of parseInt: hexadecimal digits after "0x" or "0X",
      otherwise the leading decimal digits; None when there are none. */
  function IntMagnitude(u: string): (r: Option<nat>)
  {
    if |u| >= 2 && u[0] == '0' && (u[1] == 'x' || u[1] == 'X') then
      var h := HexRun(u[2..]);
      if h == 0 then None else Some(HexValue(u[2..][..h]))
    else
      var d := DigitRun(u);
      if d == 0 then None else Some(DecimalValue(u[..d]))
  }

  /** A string of decimal digits is read as its decimal value. */
  lemma IntMagnitudeOfDigits(s: string)
    requires |s| >= 1 && AllDigits(s)
    ensures IntMagnitude(s) == Some(DecimalValue(s))
  {
    assert |s| >= 2 ==> IsDigit(s[1]);
    DigitRunOfDigits(s);
    assert s[..|s|] == s;
  }

  /** Without leading white space or a sign, parseInt is the magnitude. */
  lemma ParseIntUnsigned(s: string)
    requires |s| >= 1 && !IsWhitespace(s[0]) && s[0] != '-' && s[0] != '+'
    ensures ParseInt(Some(s)) == if IntMagnitude(s).None? then None else Some(IntMagnitude(s).value as int)
  {
    TrimStartOfTrimmed(s);
  }

  /** parseInt reads a string of decimal digits as its decimal value. */
  lemma ParseIntOfDigits(s: string)
    requires |s| >= 1 && AllDigits(s)
    ensures ParseInt(Some(s)) == Some(DecimalValue(s))
  {
    assert IsDigit(s[0]);
    ParseIntUnsigned(s);
    IntMagnitudeOfDigits(s);
  }

  /** parseInt reads a decimal numeral back as its value. */
  lemma ParseIntOfNumeral(n: nat)
    ensures ParseInt(Some(NatToDecimal(n))) == Some(n)
  {
    ParseIntOfDigits(NatToDecimal(n));
    DecimalRoundTrip(n);
  }

  /** `parseInt(s) || d`: NaN and 0 fall back to d. */
  function ParseIntOr(s: Option<string>, d: int): (r: int)
    ensures ParseInt(s).None? || ParseInt(s) == Some(0) ==> r == d
    ensures ParseInt(s).Some? && ParseInt(s).value != 0 ==> r == ParseInt(s).value
    ensures d != 0 ==> r != 0
  {
    match ParseInt(s)
    case None => d
    case Some(v) => if v == 0 then d else v
  }

  // ---- arithmetic ----

  function AddNumbers(a: Number, b: Number): (r: Number)
    ensures r == NaN <==> a == NaN || b == NaN
  {
    if a.NaN? || b.NaN? then NaN else Real(a.v + b.v)
  }

  /** The binary `+` operator: string concatenation when either operand is a
      string or an object, numeric addition otherwise. */
  function JsAdd(a: Value, b: Value): (r: Value)
    ensures a.Num? && b.Num? ==> r == Num(AddNumbers(a.n, b.n))
    ensures (a.Str? || a.Point? || b.Str? || b.Point?) ==> r.Str?
  {
    if a.Str? || a.Point? || b.Str? || b.Point? then Str(ToString(a) + ToString(b))
    else Num(AddNumbers(ToNumber(a), ToNumber(b)))
  }

  /** `xs[i]`: undefined past the end. */
  function At(xs: seq<Value>, i: nat): (v: Value)
    ensures i < |xs| ==> v == xs[i]
    ensures i >= |xs| ==> v == Undefined
  {
    if i < |xs| then xs[i] else Undefined
  }

  /** Lifts numbers into values, as a JavaScript array of numbers is. */
  function NumValues(ns: seq<Number>): (vs: seq<Value>)
    ensures |vs| == |ns|
    ensures forall i :: 0 <= i < |ns| ==> vs[i] == Num(ns[i])
  {
    seq(|ns|, i requires 0 <= i < |ns| => Num(ns[i]))
  }

  function RealValues(rs: seq<real>): (vs: seq<Value>)
    ensures |vs| == |rs|
    ensures forall i :: 0 <= i < |rs| ==> vs[i] == Num(Real(rs[i]))
  {
    seq(|rs|, i requires 0 <= i < |rs| => Num(Real(rs[i])))
  }
}
