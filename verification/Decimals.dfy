/**
 Decimal strings and the float64 values they stand for. The CRD schemas forbid
 floating point numbers, so coverages and statistics thresholds travel as decimal
 strings and are compared as numbers.

 `strconv.ParseFloat` is a parameter of the whole model: any function from strings
 to float values or an error. On the grammar of the CRD patterns it is the exact
 rational value followed by a rounding, as section 4.3.1 of IEEE 754-2019 requires;
 outside the grammar nothing is known about it.
 */
module Decimals {
  import opened Options

  datatype Float = Finite(value: real) | Infinite(negative: bool) | NaN

  type ParseFloat = string -> Option<Float>

  /** Go's `==` on float64: NaN equals nothing. */
  predicate FloatEq(a: Float, b: Float) {
    a == b && !a.NaN?
  }

  predicate IsDigit(c: char) {
    '0' <= c <= '9'
  }

  function Digit(c: char): nat
    requires IsDigit(c)
  {
    (c - '0') as nat
  }

  predicate AllDigits(s: string) {
    forall c :: c in s ==> IsDigit(c)
  }

  predicate AllZeros(s: string) {
    forall c :: c in s ==> c == '0'
  }

  /** The pattern `^(0(\.[0-9]+)?|1(\.0+)?)$` of the coverage and threshold fields. */
  predicate InGrammar(s: string) {
    && s != []
    && (|s| == 1 || (|s| >= 3 && s[1] == '.'))
    && (s[0] == '0' || s[0] == '1')
    && AllDigits(Fraction(s))
    && (s[0] == '1' ==> AllZeros(Fraction(s)))
  }

  /** The admitted strings, spelled out: zero or one, a zero with any digits after the point, a one with zeros. */
  lemma InGrammarExactlyWhen(s: string)
    ensures InGrammar(s)
            <==> || s == "0" || s == "1"
                 || exists ds :: ds != [] && ((s == "0." + ds && forall c :: c in ds ==> c in "0123456789")
                                              || (s == "1." + ds && forall c :: c in ds ==> c == '0'))
  {
    if InGrammar(s) {
      if |s| == 1 {
        assert s == [s[0]];
      } else {
        var ds := Fraction(s);
        assert s == [s[0]] + "." + ds;
        forall c | c in ds ensures c in "0123456789" {
          DigitCharacters(c);
        }
        assert s[0] == '0' ==> s == "0." + ds;
        assert s[0] == '1' ==> s == "1." + ds;
      }
    }
    if ds :| ds != [] && ((s == "0." + ds && forall c :: c in ds ==> c in "0123456789")
                          || (s == "1." + ds && forall c :: c in ds ==> c == '0')) {
      assert Fraction(s) == ds;
      forall c | c in ds ensures IsDigit(c) {
        DigitCharacters(c);
      }
    }
  }

  lemma DigitCharacters(c: char)
    ensures IsDigit(c) <==> c in "0123456789"
  {
    var digits := "0123456789";
    if IsDigit(c) {
      assert digits[c as int - '0' as int] == c;
    }
  }

  /** The digits after the point. */
  function Fraction(s: string): string {
    if |s| < 2 then [] else s[2..]
  }

  /** The exact value of a digit string read after the decimal point. */
  function FractionValue(ds: string): (r: real)
    requires AllDigits(ds)
    ensures 0.0 <= r < 1.0
  {
    if ds == [] then 0.0 else (Digit(ds[0]) as real + FractionValue(ds[1..])) / 10.0
  }

  /** The whole number a digit string spells in base ten. */
  function WholeValue(ds: string): int
    requires AllDigits(ds)
  {
    if ds == [] then 0 else 10 * WholeValue(ds[..|ds| - 1]) + (ds[|ds| - 1] as int - '0' as int)
  }

  /** The point moved n places to the left. */
  function Tenths(r: real, n: nat): real {
    if n == 0 then r else Tenths(r, n - 1) / 10.0
  }

  lemma {:induction false} TenthsAdd(r: real, s: real, n: nat)
    ensures Tenths(r + s, n) == Tenths(r, n) + Tenths(s, n)
    ensures n > 0 ==> Tenths(10.0 * r, n) == Tenths(r, n - 1)
  {
    if n > 0 {
      TenthsAdd(r, s, n - 1);
    }
  }

  /** A further digit adds its tenths. */
  lemma {:induction false} LastDigit(ds: string)
    requires ds != [] && AllDigits(ds) && AllDigits(ds[..|ds| - 1])
    ensures FractionValue(ds) == FractionValue(ds[..|ds| - 1]) + Tenths((ds[|ds| - 1] as int - '0' as int) as real, |ds|)
  {
    assert ds[0] in ds;
    if |ds| > 1 {
      var init, rest := ds[..|ds| - 1], ds[1..];
      assert init[1..] == rest[..|rest| - 1];
      LastDigit(rest);
    } else {
      assert ds[1..] == [];
    }
  }

  /**
   Read after the point, n digits stand for the number they spell in base ten, the point
   moved n places to the left.
   */
  lemma {:induction false} FractionIsBaseTen(ds: string)
    requires AllDigits(ds)
    ensures FractionValue(ds) == Tenths(WholeValue(ds) as real, |ds|)
  {
    if ds != [] {
      var init, last := ds[..|ds| - 1], ds[|ds| - 1] as int - '0' as int;
      FractionIsBaseTen(init);
      LastDigit(ds);
      TenthsAdd(10.0 * WholeValue(init) as real, last as real, |ds|);
      TenthsAdd(WholeValue(init) as real, 0.0, |ds|);
    }
  }

  /** The exact rational value of a decimal string. */
  function DecimalValue(s: string): real
    requires InGrammar(s)
  {
    Digit(s[0]) as real + FractionValue(Fraction(s))
  }

  /** What any rounding direction of section 4.3 of IEEE 754-2019 satisfies on [0, 1]. */
  ghost predicate IsRounding(round: real -> real) {
    && round(0.0) == 0.0
    && round(1.0) == 1.0
    && forall x, y {:trigger round(x), round(y)} :: x <= y ==> round(x) <= round(y)
  }

  /** `parse` reads every string of the grammar as its exact value, rounded. */
  ghost predicate ReadsDecimals(parse: ParseFloat, round: real -> real) {
    forall s {:trigger parse(s)} :: InGrammar(s) ==> parse(s) == Some(Finite(round(DecimalValue(s))))
  }

  lemma {:induction false} ZerosAreZero(ds: string)
    requires AllZeros(ds)
    ensures AllDigits(ds) && FractionValue(ds) == 0.0
  {
    if ds != [] {
      assert forall c :: c in ds[1..] ==> c in ds;
      ZerosAreZero(ds[1..]);
      assert ds[0] in ds;
    }
  }

  /** Every string the CRD admits parses to a number between 0 and 1. */
  lemma GrammarParsesIntoUnit(parse: ParseFloat, round: real -> real, s: string)
    requires IsRounding(round) && ReadsDecimals(parse, round) && InGrammar(s)
    ensures parse(s).Some? && parse(s).value.Finite?
    ensures 0.0 <= parse(s).value.value <= 1.0
  {
    if s[0] == '1' {
      ZerosAreZero(Fraction(s));
    }
    assert 0.0 <= DecimalValue(s) <= 1.0;
    assert round(0.0) <= round(DecimalValue(s)) <= round(1.0);
  }

  /** A digit string without its trailing zeros. */
  function Trim(ds: string): string {
    if ds == [] then []
    else
      var rest := Trim(ds[1..]);
      if rest == [] && ds[0] == '0' then [] else [ds[0]] + rest
  }

  lemma {:induction false} TrimKeepsValue(ds: string)
    requires AllDigits(ds)
    ensures AllDigits(Trim(ds)) && FractionValue(Trim(ds)) == FractionValue(ds)
  {
    if ds != [] {
      assert forall c :: c in ds[1..] ==> c in ds;
      assert ds[0] in ds;
      TrimKeepsValue(ds[1..]);
      var rest := Trim(ds[1..]);
      assert ([ds[0]] + rest)[1..] == rest;
    }
  }

  lemma {:induction false} TrimZero(ds: string)
    requires AllDigits(ds)
    ensures FractionValue(ds) == 0.0 <==> Trim(ds) == []
  {
    if ds != [] {
      assert forall c :: c in ds[1..] ==> c in ds;
      assert ds[0] in ds;
      TrimZero(ds[1..]);
    }
  }

  /** Two digit strings have the same value exactly when they differ in trailing zeros only. */
  lemma {:induction false} SameValueSameDigits(a: string, b: string)
    requires AllDigits(a) && AllDigits(b)
    ensures FractionValue(a) == FractionValue(b) <==> Trim(a) == Trim(b)
    decreases |a| + |b|
  {
    if a == [] || b == [] {
      TrimZero(a);
      TrimZero(b);
    } else {
      assert (forall c :: c in a[1..] ==> c in a) && (forall c :: c in b[1..] ==> c in b);
      assert a[0] in a && b[0] in b;
      SameValueSameDigits(a[1..], b[1..]);
      TrimKeepsValue(a);
      TrimKeepsValue(b);
      if FractionValue(a) == FractionValue(b) {
        var x, y := Digit(a[0]), Digit(b[0]);
        assert (x - y) as real == FractionValue(b[1..]) - FractionValue(a[1..]);
        assert x == y && a[0] == b[0];
      }
    }
  }

  /**
   Spellings of one number: two strings of the grammar have the same value exactly
   when they agree on the leading digit and, up to trailing zeros, after the point.
   */
  lemma SpellingsOfOneNumber(s: string, t: string)
    requires InGrammar(s) && InGrammar(t)
    ensures DecimalValue(s) == DecimalValue(t) <==> s[0] == t[0] && Trim(Fraction(s)) == Trim(Fraction(t))
  {
    SameValueSameDigits(Fraction(s), Fraction(t));
    if DecimalValue(s) == DecimalValue(t) {
      var x, y := Digit(s[0]), Digit(t[0]);
      assert (x - y) as real == FractionValue(Fraction(t)) - FractionValue(Fraction(s));
      assert x == y;
    }
  }
}
