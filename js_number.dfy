/**
 * JavaScript's `Number` conversion as the pages rely on it: `Number(s)` of
 * a string (StringToNumber, section 7.1.4.1.1 of ECMA-262), `Number(v)` of
 * a value from a response, and a `<` whose right side is converted. Values
 * are exact: no rounding to double precision.
 */
module JsNumber {
  import opened Json
  import opened Outcomes
  import Text

  /** A JavaScript number: NaN, an infinity, or a finite value. */
  datatype Number = NaN | Infinite(negative: bool) | Finite(value: real)

  predicate AllDigits(s: string) {
    forall i :: 0 <= i < |s| ==> Text.IsDigit(s[i])
  }

  /** The value of a run of decimal digits; the empty run is 0. */
  function DigitsValue(s: string): (n: nat)
    requires AllDigits(s)
    ensures s == "" ==> n == 0
    decreases |s|
  {
    if s == [] then 0 else DigitsValue(s[..|s| - 1]) * 10 + ((s[|s| - 1] as int) - ('0' as int))
  }

  function Pow10(k: nat): (p: nat)
    ensures p >= 1
  {
    if k == 0 then 1 else 10 * Pow10(k - 1)
  }

  /**
   * The index of the first `a` or `b` in `t`, or `|t|` when there is none.
   * Searching for one character passes it as both `a` and `b`.
   */
  function Find(t: string, a: char, b: char): (k: nat)
    ensures k <= |t| && forall i :: 0 <= i < k ==> t[i] != a && t[i] != b
    ensures k < |t| ==> t[k] == a || t[k] == b
  {
    if t == [] then 0
    else if t[0] == a || t[0] == b then 0
    else 1 + Find(t[1..], a, b)
  }

  /**
   * An unsigned decimal mantissa: digits with at most one '.' and at least
   * one digit. `None` when `t` is not of that form.
   */
  function Decimal(t: string): (r: Option<real>)
    ensures r.Some? ==> r.value >= 0.0
    ensures AllDigits(t) && t != "" ==> r == Some(DigitsValue(t) as real)
  {
    var k := Find(t, '.', '.');  // the first '.'
    if k == |t| then
      if AllDigits(t) && t != "" then Some(DigitsValue(t) as real) else None
    else
      assert !AllDigits(t) by { assert !Text.IsDigit(t[k]); }
      var whole, frac := t[..k], t[k + 1..];
      if AllDigits(whole) && AllDigits(frac) && (whole != "" || frac != "") then
        var fraction := (DigitsValue(frac) as real) / (Pow10(|frac|) as real);
        assert fraction >= 0.0;
        Some(DigitsValue(whole) as real + fraction)
      else None
  }

  /** An exponent: an optional sign and at least one digit. */
  function Exponent(t: string): (r: Option<int>)
    ensures AllDigits(t) && t != "" ==> r == Some(DigitsValue(t))
  {
    if t != [] && (t[0] == '+' || t[0] == '-') then
      var d := t[1..];
      if d != "" && AllDigits(d) then
        var n: int := DigitsValue(d);
        Some(if t[0] == '-' then -n else n)
      else None
    else if t != "" && AllDigits(t) then Some(DigitsValue(t))
    else None
  }

  /** `m` times ten to the power `e`. */
  function Scale(m: real, e: int): real {
    if e >= 0 then m * (Pow10(e) as real) else m / (Pow10(-e) as real)
  }

  /** `Infinity`, or a mantissa with an optional `e`/`E` exponent; no sign. */
  function Unsigned(u: string): (r: Number)
    ensures r.Finite? ==> r.value >= 0.0
    ensures AllDigits(u) && u != "" ==> r == Finite(DigitsValue(u) as real)
  {
    if u == "Infinity" then Infinite(false)
    else
      var k := Find(u, 'e', 'E');
      var m := Decimal(u[..k]);
      if m.None? then NaN
      else if k == |u| then
        assert u[..k] == u;
        Finite(m.value)
      else
        match Exponent(u[k + 1..])
        case None => NaN
        case Some(e) =>
          assert Scale(m.value, e) >= 0.0;
          Finite(Scale(m.value, e))
  }

  /** Unary minus. */
  function Negate(n: Number): (r: Number)
    ensures n.Finite? ==> r == Finite(-n.value)
    ensures n.Infinite? ==> r == Infinite(!n.negative)
    ensures n.NaN? ==> r.NaN?
  {
    match n
    case Finite(v) => Finite(-v)
    case Infinite(neg) => Infinite(!neg)
    case NaN => NaN
  }

  /** The base a prefix letter after '0' selects, 0 for none. */
  function Radix(c: char): (b: nat)
    ensures b == 0 || b == 2 || b == 8 || b == 16
  {
    if c == 'x' || c == 'X' then 16 else if c == 'o' || c == 'O' then 8 else if c == 'b' || c == 'B' then 2 else 0
  }

  /** The value of a digit in bases up to 16 (either case of a-f); 16 for any other character. */
  function DigitValue(c: char): (d: nat)
    ensures d <= 16
  {
    if Text.IsDigit(c) then c as int - '0' as int
    else if 'a' <= c <= 'f' then c as int - 'a' as int + 10
    else if 'A' <= c <= 'F' then c as int - 'A' as int + 10
    else 16
  }

  predicate InRadix(s: string, base: nat) {
    forall i :: 0 <= i < |s| ==> DigitValue(s[i]) < base
  }

  /** The value of a run of digits in `base`. */
  function RadixValue(s: string, base: nat): nat
    requires InRadix(s, base)
    decreases |s|
  {
    if s == [] then 0 else RadixValue(s[..|s| - 1], base) * base + DigitValue(s[|s| - 1])
  }

  /**
   * A trimmed, non-empty literal: `0x`, `0o` or `0b` and at least one digit
   * of that base (no sign allowed), or an optional sign before an unsigned
   * literal.
   */
  function Numeric(t: string): (r: Number)
    requires t != ""
    ensures AllDigits(t) ==> r == Finite(DigitsValue(t) as real)
  {
    if |t| >= 3 && t[0] == '0' && Radix(t[1]) != 0 then
      assert !Text.IsDigit(t[1]);
      var base, digits := Radix(t[1]), t[2..];
      if InRadix(digits, base) then Finite(RadixValue(digits, base) as real) else NaN
    else if t[0] == '-' then Negate(Unsigned(t[1..]))
    else if t[0] == '+' then Unsigned(t[1..])
    else Unsigned(t)
  }

  /**
   * `Number(s)`: surrounding white space is ignored, a blank string is 0,
   * and anything that is not a numeric literal is NaN.
   */
  function NumberOf(s: string): (r: Number)
    ensures Text.Trim(s) == "" ==> r == Finite(0.0)
    ensures Text.Trim(s) != "" ==> r == Numeric(Text.Trim(s))
  {
    var t := Text.Trim(s);
    if t == "" then Finite(0.0) else Numeric(t)
  }

  /** The digits of a natural number read back as that number. */
  lemma {:induction false} DigitsValueOfDigits(n: nat)
    ensures AllDigits(Digits(n)) && DigitsValue(Digits(n)) == n
  {
    var d := "0123456789"[n % 10];
    assert (d as int) - ('0' as int) == n % 10 by {
      var m := n % 10;
      if m == 0 {} else if m == 1 {} else if m == 2 {} else if m == 3 {} else if m == 4 {}
      else if m == 5 {} else if m == 6 {} else if m == 7 {} else if m == 8 {} else {}
    }
    if n >= 10 {
      DigitsValueOfDigits(n / 10);
      var s := Digits(n / 10) + [d];
      assert s[..|s| - 1] == Digits(n / 10);
    }
  }

  /** A run of digits has no white space at either end, so `Number` reads it as its value. */
  lemma NumberOfDigits(s: string)
    requires s != "" && AllDigits(s)
    ensures NumberOf(s) == Finite(DigitsValue(s) as real)
  {
    assert Text.IsDigit(s[0]) && Text.IsDigit(s[|s| - 1]);
    Text.TrimUnchanged(s);
  }

  /** A run of lower-case letters is no mantissa. */
  lemma LettersNoDecimal(s: string)
    requires forall i :: 0 <= i < |s| ==> 'a' <= s[i] <= 'z'
    ensures Decimal(s) == None
  {
    if s != "" {
      assert !Text.IsDigit(s[0]);
      assert Find(s, '.', '.') == |s|;
    }
  }

  /** A word of lower-case letters is NaN, whether or not it holds an 'e'. */
  lemma NumberOfLetters(s: string)
    requires s != "" && forall i :: 0 <= i < |s| ==> 'a' <= s[i] <= 'z'
    ensures NumberOf(s) == NaN
  {
    assert !Text.IsSpace(s[0]) && !Text.IsSpace(s[|s| - 1]);
    Text.TrimUnchanged(s);
    assert s[0] != '0' && s[0] != '-' && s[0] != '+' && s != "Infinity";
    var k := Find(s, 'e', 'E');
    LettersNoDecimal(s[..k]);
  }

  /** The value of one digit character. */
  function DigitOf(c: char): int {
    (c as int) - ('0' as int)
  }

  /** `Number("a.b")` for two digits a and b is a + b/10. */
  lemma OneDecimal(a: char, b: char)
    requires Text.IsDigit(a) && Text.IsDigit(b)
    ensures NumberOf([a, '.', b]) == Finite(DigitOf(a) as real + (DigitOf(b) as real) / 10.0)
  {
    var t := [a, '.', b];
    NumberOfLiteral(t);
    NumericUnsigned(t);
    assert Find(t, 'e', 'E') == 3 by {
      assert t[1..] == ['.', b] && t[1..][1..] == [b] && t[1..][1..][1..] == [];
    }
    UnsignedNoExponent(t);
    assert Find(t, '.', '.') == 1 by {
      assert t[1..] == ['.', b];
    }
    var whole, frac := t[..1], t[2..];
    assert whole == [a] && frac == [b];
    assert DigitsValue(whole) == DigitOf(a) by { assert whole[..0] == ""; }
    assert DigitsValue(frac) == DigitOf(b) by { assert frac[..0] == ""; }
    assert Pow10(1) == 10;
    assert Decimal(t) == Some(DigitOf(a) as real + (DigitOf(b) as real) / 10.0);
  }

  /** A literal that starts with neither a sign nor a base prefix is read as an unsigned literal. */
  lemma NumericUnsigned(t: string)
    requires t != "" && t[0] != '-' && t[0] != '+'
    requires |t| >= 3 && t[0] == '0' ==> Radix(t[1]) == 0
    ensures Numeric(t) == Unsigned(t)
  {
  }

  /** Without an exponent mark, an unsigned literal other than `Infinity` is its mantissa. */
  lemma UnsignedNoExponent(u: string)
    requires u != "Infinity" && Find(u, 'e', 'E') == |u|
    ensures Unsigned(u) == if Decimal(u).Some? then Finite(Decimal(u).value) else NaN
  {
    assert u[..|u|] == u;
  }

  /** A literal with no white space at either end is read by `Numeric` as it is. */
  lemma NumberOfLiteral(t: string)
    requires t != "" && !Text.IsSpace(t[0]) && !Text.IsSpace(t[|t| - 1])
    ensures NumberOf(t) == Numeric(t)
  {
    Text.TrimUnchanged(t);
  }

  /** A literal that starts with a sign is the unsigned rest, negated after '-'. */
  lemma NumericSigned(t: string)
    requires t != "" && (t[0] == '-' || t[0] == '+')
    ensures Numeric(t) == if t[0] == '-' then Negate(Unsigned(t[1..])) else Unsigned(t[1..])
  {
  }

  /** A signed run of digits reads as its value, negated after '-'. */
  lemma SignedDigits(sign: char, s: string)
    requires (sign == '-' || sign == '+') && s != "" && AllDigits(s)
    ensures NumberOf([sign] + s) == Finite(if sign == '-' then -(DigitsValue(s) as real) else DigitsValue(s) as real)
  {
    var t := [sign] + s;
    assert t[0] == sign && t[1..] == s;
    assert Text.IsDigit(s[|s| - 1]) && t[|t| - 1] == s[|s| - 1];
    var u := Unsigned(s);
    assert u == Finite(DigitsValue(s) as real);
    NumberOfLiteral(t);
    NumericSigned(t);
  }

  /** Digits, 'e' and digits read as the mantissa times a power of ten. */
  lemma ExponentDigits(a: string, b: string)
    requires a != "" && AllDigits(a) && b != "" && AllDigits(b)
    ensures NumberOf(a + "e" + b) == Finite((DigitsValue(a) * Pow10(DigitsValue(b))) as real)
  {
    ExponentShape(a, b);
    NumberOfUnsigned(a + "e" + b);
    UnsignedExponentDigits(a, b);
  }

  /** Digits, 'e' and digits start with a digit, end with a digit and carry no base prefix. */
  lemma ExponentShape(a: string, b: string)
    requires a != "" && AllDigits(a) && b != "" && AllDigits(b)
    ensures var t := a + "e" + b;
      |t| >= 3 && Text.IsDigit(t[0]) && Text.IsDigit(t[|t| - 1]) && Radix(t[1]) == 0
  {
    var t := a + "e" + b;
    assert t[0] == a[0] && Text.IsDigit(a[0]);
    assert t[|t| - 1] == b[|b| - 1] && Text.IsDigit(b[|b| - 1]);
    var c := if |a| == 1 then 'e' else a[1];
    assert t[1] == c;
  }

  /** A literal with no white space around it and neither a sign nor a base prefix is read as unsigned. */
  lemma NumberOfUnsigned(t: string)
    requires t != "" && !Text.IsSpace(t[0]) && !Text.IsSpace(t[|t| - 1]) && t[0] != '-' && t[0] != '+'
    requires |t| >= 3 && t[0] == '0' ==> Radix(t[1]) == 0
    ensures NumberOf(t) == Unsigned(t)
  {
    NumberOfLiteral(t);
    NumericUnsigned(t);
  }

  /** The unsigned literal of digits, 'e' and digits. */
  lemma UnsignedExponentDigits(a: string, b: string)
    requires a != "" && AllDigits(a) && b != "" && AllDigits(b)
    ensures Unsigned(a + "e" + b) == Finite((DigitsValue(a) * Pow10(DigitsValue(b))) as real)
  {
    var t := a + "e" + b;
    FindAfterDigits(a, "e" + b, 'e', 'E');
    assert t == a + ("e" + b);
    var k := Find(t, 'e', 'E');
    assert k == |a|;
    assert t[..k] == a && t[k + 1..] == b;
    assert t != "Infinity" by { assert t[0] == a[0] && "Infinity"[0] == 'I'; }
    var m, e := DigitsValue(a), DigitsValue(b);
    assert Decimal(t[..k]) == Some(m as real);
    assert Exponent(t[k + 1..]) == Some(e);
    UnsignedWithExponent(t, k);
    ScaleWhole(m, e);
  }

  /** A whole mantissa times a non-negative power of ten stays whole. */
  lemma ScaleWhole(m: nat, e: nat)
    ensures Scale(m as real, e) == (m * Pow10(e)) as real
  {
  }

  /** With an exponent mark at `k`, an unsigned literal is its mantissa scaled by the exponent. */
  lemma UnsignedWithExponent(u: string, k: nat)
    requires u != "Infinity" && k == Find(u, 'e', 'E') < |u|
    requires Decimal(u[..k]).Some? && Exponent(u[k + 1..]).Some?
    ensures Unsigned(u) == Finite(Scale(Decimal(u[..k]).value, Exponent(u[k + 1..]).value))
  {
  }

  /** In `a + rest` with `a` all digits, the first mark of a set without digits is found in `rest`. */
  lemma {:induction false} FindAfterDigits(a: string, rest: string, x: char, y: char)
    requires AllDigits(a) && !Text.IsDigit(x) && !Text.IsDigit(y)
    ensures Find(a + rest, x, y) == |a| + Find(rest, x, y)
  {
    if a != "" {
      assert a + rest != [] && (a + rest)[0] == a[0] && (a + rest)[1..] == a[1..] + rest;
      assert Text.IsDigit(a[0]);
      FindAfterDigits(a[1..], rest, x, y);
    } else {
      assert a + rest == rest;
    }
  }

  /** `0x`, `0o` or `0b` and digits of that base read as their value in that base. */
  lemma PrefixedDigits(c: char, s: string)
    requires Radix(c) != 0 && s != "" && InRadix(s, Radix(c))
    ensures NumberOf(['0', c] + s) == Finite(RadixValue(s, Radix(c)) as real)
  {
    var t := ['0', c] + s;
    assert t[0] == '0' && t[1] == c && t[2..] == s;
    assert t[|t| - 1] == s[|s| - 1] && DigitValue(s[|s| - 1]) < 16;
    NumberOfLiteral(t);
    NumericPrefixed(t);
  }

  /** A base prefix and digits of that base are read in that base. */
  lemma NumericPrefixed(t: string)
    requires |t| >= 3 && t[0] == '0' && Radix(t[1]) != 0 && InRadix(t[2..], Radix(t[1]))
    ensures Numeric(t) == Finite(RadixValue(t[2..], Radix(t[1])) as real)
  {
  }

  /** A leading '-' negates: "-1", a basement floor, reads as -1. */
  lemma MinusForm()
    ensures NumberOf("-1") == Finite(-1.0)
  {
    assert DigitsValue("1") == 1 by { assert "1"[..0] == ""; }
    SignedDigits('-', "1");
    assert ['-'] + "1" == "-1";
  }

  /** An exponent is applied: "3e0" reads as 3. */
  lemma ExponentForm()
    ensures NumberOf("3e0") == Finite(3.0)
  {
    var t := "3e0";
    assert t == "3" + "e" + "0";
    ExponentLiteral(t);
  }

  /** The same literal as digits, 'e' and digits joined. */
  lemma ExponentLiteral(t: string)
    requires t == "3" + "e" + "0"
    ensures NumberOf(t) == Finite(3.0)
  {
    var a, b := "3", "0";
    assert DigitsValue(a) == 3 by { assert a[..0] == ""; }
    assert DigitsValue(b) == 0 by { assert b[..0] == ""; }
    assert Pow10(0) == 1;
    ExponentDigits(a, b);
  }

  /** A base prefix is honoured: "0x3" reads as 3. */
  lemma PrefixedForm()
    ensures NumberOf("0x3") == Finite(3.0)
  {
    PrefixedDigits('x', "3");
    assert ['0', 'x'] + "3" == "0x3";
    assert RadixValue("3", 16) == 3 by { assert "3"[..0] == ""; }
  }

  /** Text is not a number. */
  lemma TextRefused()
    ensures NumberOf("abc") == NaN
  {
    NumberOfLetters("abc");
  }

  /** A blank answer reads as 0, below the range. */
  lemma BlankRefused()
    ensures NumberOf(" ") == Finite(0.0)
  {
    assert Text.IsSpace(" "[0]);
  }

  // ---------------------------------------------------------------------
  // Values from a response.

  /**
   * `Number(v)` (ToNumber, section 7.1.4 of ECMA-262) of a value: `undefined`
   * is NaN, `null` and `false` are 0 and `true` is 1; a string is read by
   * `NumberOf`, and an array through its `String` rendering. A plain object
   * renders as "[object Object]" and a function as its source text: both NaN.
   */
  function ToNumber(v: Value): (r: Number)
    ensures v.Num? ==> r == Finite(v.n as real)
    ensures v.Str? ==> r == NumberOf(v.s)
    ensures v.Undefined? || v.Obj? || v.Func? ==> r == NaN
  {
    match v
    case Undefined => NaN
    case Null => Finite(0.0)
    case Bool(b) => Finite(if b then 1.0 else 0.0)
    case Num(n) => Finite(n as real)
    case Str(s) => NumberOf(s)
    case Arr(_) => NumberOf(ToStr(v))
    case Obj(_) => NaN
    case Func(_) => NaN
  }

  /**
   * `x < y` for a number `x` and a value `y`, which the comparison converts
   * as `Number(y)` does: never true against NaN, always true against
   * +Infinity.
   */
  predicate LessThan(x: int, y: Value) {
    match ToNumber(y)
    case NaN => false
    case Infinite(negative) => !negative
    case Finite(v) => (x as real) < v
  }

  /** `String(n)` read back by `Number` is `n`. */
  lemma {:induction false} NumberOfNumToStr(n: int)
    ensures NumberOf(NumToStr(n)) == Finite(n as real)
  {
    if n < 0 {
      var m: nat := -n;
      var t := "-" + Digits(m);
      assert NumToStr(n) == t;
      NegativeNumeral(m);
      assert NumberOf(t) == Finite(-(m as real));
      assert -(m as real) == n as real;
    } else {
      assert NumToStr(n) == Digits(n);
      NonNegativeNumeral(n);
    }
  }

  /** The digits of `m` read as `m`. */
  lemma NonNegativeNumeral(m: nat)
    ensures NumberOf(Digits(m)) == Finite(m as real)
  {
    DigitsValueOfDigits(m);
    NumberOfDigits(Digits(m));
  }

  /** "-" and the digits of a positive `m` read as `-m`. */
  lemma NegativeNumeral(m: nat)
    requires m > 0
    ensures NumberOf("-" + Digits(m)) == Finite(-(m as real))
  {
    var d := Digits(m);
    DigitsValueOfDigits(m);
    SignedDigits('-', d);
    assert ['-'] + d == "-" + d;
  }

  /** Against a number, `<` is the comparison of integers. */
  lemma LessThanNumber(x: int, n: int)
    ensures LessThan(x, Num(n)) <==> x < n
  {
  }

  /** Against the decimal string of `n`, `<` compares with `n`: "20" counts as 20. */
  lemma LessThanNumeral(x: int, n: int)
    ensures LessThan(x, Str(NumToStr(n))) <==> x < n
  {
    NumberOfNumToStr(n);
    assert ToNumber(Str(NumToStr(n))) == Finite(n as real);
  }

  /** Nothing is less than `undefined` or a plain object. */
  lemma NeverLessThanNaN(x: int, v: Value)
    requires v.Undefined? || v.Obj?
    ensures !LessThan(x, v)
  {
  }
}
