/** The part of JavaScript's number semantics the application relies on:
    a number is either finite or NaN, and NaN poisons arithmetic and makes
    every comparison false. Reals stand in for IEEE doubles. */
module JsNumber {

  datatype Number = NaN | Finite(value: real)

  function FromInt(i: int): Number {
    Finite(i as real)
  }

  /** `a === b`: NaN is equal to nothing, itself included. */
  predicate StrictEquals(a: Number, b: Number) {
    a.Finite? && b.Finite? && a.value == b.value
  }

  /** `a < b`: false whenever either side is NaN. */
  predicate Less(a: Number, b: Number) {
    a.Finite? && b.Finite? && a.value < b.value
  }

  /** `a > b`: false whenever either side is NaN. */
  predicate Greater(a: Number, b: Number) {
    a.Finite? && b.Finite? && a.value > b.value
  }

  /** `a + b` */
  function Add(a: Number, b: Number): (r: Number)
    ensures r.NaN? <==> a.NaN? || b.NaN?
  {
    if a.Finite? && b.Finite? then Finite(a.value + b.value) else NaN
  }

  predicate HasNaN(xs: seq<Number>) {
    exists i :: 0 <= i < |xs| && xs[i].NaN?
  }

  function Max2(a: Number, b: Number): Number {
    if a.NaN? || b.NaN? then NaN else if a.value < b.value then b else a
  }

  function Min2(a: Number, b: Number): Number {
    if a.NaN? || b.NaN? then NaN else if b.value < a.value then b else a
  }

  /** `Math.max(...xs)` on a non-empty list: NaN as soon as one argument is NaN. */
  function MathMax(xs: seq<Number>): (r: Number)
    requires |xs| > 0
    ensures r.NaN? <==> HasNaN(xs)
    ensures r.Finite? ==> forall i :: 0 <= i < |xs| ==> xs[i].Finite? && xs[i].value <= r.value
    ensures r.Finite? ==> exists i :: 0 <= i < |xs| && xs[i] == r
    decreases |xs|
  {
    if |xs| == 1 then xs[0]
    else
      var m := MathMax(xs[..|xs| - 1]);
      assert forall i :: 0 <= i < |xs| - 1 ==> xs[..|xs| - 1][i] == xs[i];
      Max2(m, xs[|xs| - 1])
  }

  /** `Math.min(...xs)` on a non-empty list: NaN as soon as one argument is NaN. */
  function MathMin(xs: seq<Number>): (r: Number)
    requires |xs| > 0
    ensures r.NaN? <==> HasNaN(xs)
    ensures r.Finite? ==> forall i :: 0 <= i < |xs| ==> xs[i].Finite? && r.value <= xs[i].value
    ensures r.Finite? ==> exists i :: 0 <= i < |xs| && xs[i] == r
    decreases |xs|
  {
    if |xs| == 1 then xs[0]
    else
      var m := MathMin(xs[..|xs| - 1]);
      assert forall i :: 0 <= i < |xs| - 1 ==> xs[..|xs| - 1][i] == xs[i];
      Min2(m, xs[|xs| - 1])
  }

  /** `xs.reduce((sum, x) => sum + x, 0)` */
  function Sum(xs: seq<Number>): (r: Number)
    ensures r.NaN? <==> HasNaN(xs)
    decreases |xs|
  {
    if xs == [] then Finite(0.0)
    else
      var s := Sum(xs[..|xs| - 1]);
      assert forall i :: 0 <= i < |xs| - 1 ==> xs[..|xs| - 1][i] == xs[i];
      Add(s, xs[|xs| - 1])
  }

  // ---------------------------------------------------------------------
  // parseInt(string) with no radix argument

  /** The white space `parseInt` skips before the number: the ECMAScript
      WhiteSpace and LineTerminator characters, including every Unicode
      space separator. */
  predicate IsWhiteSpace(c: char) {
    c == ' ' || c == '\t' || c == '\n' || c == '\r' || c == '\U{000B}' || c == '\U{000C}'
    || c == '\U{00A0}' || c == '\U{1680}' || '\U{2000}' <= c <= '\U{200A}'
    || c == '\U{202F}' || c == '\U{205F}' || c == '\U{3000}'
    || c == '\U{FEFF}' || c == '\U{2028}' || c == '\U{2029}'
  }

  /** The value of a character as a digit in radix 36, if it is one. */
  function DigitValue(c: char): (d: int)
    ensures -1 <= d < 36
    ensures d < 10 <==> !('a' <= c <= 'z' || 'A' <= c <= 'Z')
    ensures 0 <= d < 10 <==> '0' <= c <= '9'
  {
    if '0' <= c <= '9' then c as int - '0' as int
    else if 'a' <= c <= 'z' then c as int - 'a' as int + 10
    else if 'A' <= c <= 'Z' then c as int - 'A' as int + 10
    else -1
  }

  predicate IsDigitIn(c: char, radix: nat) {
    0 <= DigitValue(c) < radix
  }

  function TrimStart(s: string): (r: string)
    ensures |r| <= |s| && r == s[|s| - |r|..]
    ensures r == [] || !IsWhiteSpace(r[0])
  {
    if s != [] && IsWhiteSpace(s[0]) then TrimStart(s[1..]) else s
  }

  /** The longest prefix of `s` made of digits of the radix. */
  function DigitPrefix(s: string, radix: nat): (ds: string)
    ensures |ds| <= |s| && ds == s[..|ds|]
    ensures forall i :: 0 <= i < |ds| ==> IsDigitIn(ds[i], radix)
    ensures |ds| < |s| ==> !IsDigitIn(s[|ds|], radix)
  {
    if s == [] || !IsDigitIn(s[0], radix) then [] else [s[0]] + DigitPrefix(s[1..], radix)
  }

  /** The value of a digit string, most significant digit first. */
  function DigitsValue(ds: string, radix: nat): nat
    requires forall i :: 0 <= i < |ds| ==> IsDigitIn(ds[i], radix)
    decreases |ds|
  {
    if ds == [] then 0
    else
      var init := ds[..|ds| - 1];
      assert forall i :: 0 <= i < |init| ==> init[i] == ds[i];
      assert IsDigitIn(ds[|ds| - 1], radix);
      Shift(DigitsValue(init, radix), radix, DigitValue(ds[|ds| - 1]))
  }

  /** Appends one digit `d` to the value `v` of the digits before it. */
  function Shift(v: nat, radix: nat, d: nat): nat {
    v * radix + d
  }

  /** What `parseInt` reads from a string: the sign, the radix chosen by
      an optional `0x` prefix, and the run of digits that follows. */
  datatype IntPrefix = IntPrefix(negative: bool, radix: nat, digits: string)

  function ScanInt(s: string): (p: IntPrefix)
    ensures forall i :: 0 <= i < |p.digits| ==> IsDigitIn(p.digits[i], p.radix)
  {
    ScanTrimmed(TrimStart(s))
  }

  /** The sign, prefix and digits read from a string whose leading white
      space is already gone. */
  function ScanTrimmed(t: string): (p: IntPrefix)
    ensures forall i :: 0 <= i < |p.digits| ==> IsDigitIn(p.digits[i], p.radix)
  {
    var negative := t != [] && t[0] == '-';
    var u := if t != [] && (t[0] == '-' || t[0] == '+') then t[1..] else t;
    var hex := |u| >= 2 && u[0] == '0' && (u[1] == 'x' || u[1] == 'X');
    var radix := if hex then 16 else 10;
    IntPrefix(negative, radix, DigitPrefix(if hex then u[2..] else u, radix))
  }

  /** `parseInt(s)`: skip leading white space, take an optional sign and an
      optional `0x` prefix, then the longest run of digits; NaN when that
      run is empty. Whatever follows the digits is ignored. */
  function ParseInt(s: string): Number {
    var p := ScanInt(s);
    if p.digits == [] then NaN
    else
      var v := DigitsValue(p.digits, p.radix);
      if p.negative then Finite(-(v as real)) else Finite(v as real)
  }

  lemma {:induction false} TrimStartSkips(ws: string, s: string)
    requires forall i :: 0 <= i < |ws| ==> IsWhiteSpace(ws[i])
    ensures TrimStart(ws + s) == TrimStart(s)
  {
    if ws != [] {
      assert (ws + s)[1..] == ws[1..] + s;
      TrimStartSkips(ws[1..], s);
    } else {
      assert ws + s == s;
    }
  }

  /** Any run of leading white space, U+3000 and the other space
      separators included, leaves what `parseInt` reads unchanged:
      `parseInt('\u3000 5') === parseInt('5')`. */
  lemma ParseIntSkipsWhiteSpace(ws: string, s: string)
    requires forall i :: 0 <= i < |ws| ==> IsWhiteSpace(ws[i])
    ensures ParseInt(ws + s) == ParseInt(s)
  {
    TrimStartSkips(ws, s);
  }

  /** The decimal numeral of a natural number, as `String(n)` writes it. */
  function Decimal(n: nat): (s: string)
    ensures |s| > 0
    ensures forall i :: 0 <= i < |s| ==> '0' <= s[i] <= '9'
    ensures s[0] == '0' ==> n == 0
  {
    if n < 10 then ['0' + n as char]
    else Decimal(n / 10) + ['0' + (n % 10) as char]
  }

  lemma {:induction false} DecimalValue(n: nat)
    ensures forall i :: 0 <= i < |Decimal(n)| ==> IsDigitIn(Decimal(n)[i], 10)
    ensures DigitsValue(Decimal(n), 10) == n
  {
    var d := Decimal(n);
    if n >= 10 {
      DecimalValue(n / 10);
      assert d[..|d| - 1] == Decimal(n / 10);
    }
  }

  lemma {:induction false} DigitPrefixOfNumeral(ds: string, suffix: string, radix: nat)
    requires forall i :: 0 <= i < |ds| ==> IsDigitIn(ds[i], radix)
    requires suffix == [] || !IsDigitIn(suffix[0], radix)
    ensures DigitPrefix(ds + suffix, radix) == ds
  {
    if ds != [] {
      assert (ds + suffix)[1..] == ds[1..] + suffix;
      DigitPrefixOfNumeral(ds[1..], suffix, radix);
    } else {
      assert ds + suffix == suffix;
    }
  }

  /** A string that starts with a decimal digit and no `0x` prefix is read
      as decimal digits from its first character. */
  lemma ScanDecimal(s: string)
    requires s != [] && '0' <= s[0] <= '9'
    requires !(|s| >= 2 && s[0] == '0' && (s[1] == 'x' || s[1] == 'X'))
    ensures ScanInt(s) == IntPrefix(false, 10, DigitPrefix(s, 10))
  {
    assert !IsWhiteSpace(s[0]);
    assert TrimStart(s) == s;
  }

  /** Round trip: `parseInt(String(n) + rest)` is `n` whenever `rest` does not
      start with a letter or digit, e.g. `parseInt('25 MW') === 25` and
      `parseInt('450') === 450`. */
  lemma ParseIntOfNumeral(n: nat, suffix: string)
    requires suffix == [] || DigitValue(suffix[0]) < 0
    ensures ParseInt(Decimal(n) + suffix) == FromInt(n)
  {
    var d := Decimal(n);
    var s := d + suffix;
    DecimalValue(n);
    assert s[0] == d[0];
    if |s| >= 2 && s[0] == '0' {
      assert |d| == 1;
      assert s[1] == suffix[0];
    }
    ScanDecimal(s);
    DigitPrefixOfNumeral(d, suffix, 10);
  }

  /** A string that starts with anything other than white space, a sign or a
      decimal digit parses to NaN: `parseInt('N/A')`, `parseInt('Hundreds of MW')`. */
  lemma ParseIntNoDigits(s: string)
    requires s != [] && !IsWhiteSpace(s[0]) && s[0] != '-' && s[0] != '+'
    requires !('0' <= s[0] <= '9')
    ensures ParseInt(s) == NaN
  {
    assert TrimStart(s) == s;
  }
}
