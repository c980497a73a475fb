/**
 Two parsers of decimal token amounts: `decimal_to_base` (rust/bench/src/fixtures.rs)
 and `parse_decimal_micro_units` (rust/crates/cli/src/main.rs). Both are proved
 against what the amount denotes, and against each other.
 */
module Decimals {
  import opened Common
  import opened UnicodeText
  import opened DigitText

  /** Place of the first point, or the length if there is none. */
  function Point(s: string): (p: nat)
    ensures p <= |s|
    ensures forall k :: 0 <= k < p ==> s[k] != '.'
    ensures p < |s| ==> s[p] == '.'
  {
    if s == "" || s[0] == '.' then 0 else 1 + Point(s[1..])
  }

  function Whole(s: string): string {
    s[..Point(s)]
  }

  function Fraction(s: string): string {
    if Point(s) < |s| then s[Point(s) + 1..] else ""
  }

  function ParseU64(s: string): Option<nat>
    requires AllDigits(s)
  {
    if s == "" || Value(s) > U64_MAX then None else Some(Value(s))
  }

  function CheckedMul(a: nat, b: nat): Option<nat> {
    if a * b > U64_MAX then None else Some(a * b)
  }

  const TWO_64: nat := U64_MAX + 1

  /** `10u64.pow(decimals)` where overflow is not checked. */
  function WrappedPow10(decimals: nat): (p: nat)
    ensures p <= U64_MAX
  {
    Pow10(decimals) % TWO_64
  }

  function BaseUnits(whole: string, fraction: string, decimals: nat): Option<nat>
    requires AllDigits(whole) && AllDigits(fraction) && |fraction| <= decimals
  {
    var padded := fraction + Zeros(decimals - |fraction|);
    PaddedValue(fraction, decimals - |fraction|);
    match ParseU64(whole)
    case None => None
    case Some(w) =>
      var f := if fraction == "" then Some(0) else ParseU64(padded);
      var base := CheckedMul(w, WrappedPow10(decimals));
      if f.None? || base.None? then None else CheckedAdd(base.value, f.value)
  }

  /** The build without overflow checks, for every number of decimals. */
  function DecimalToBase(input: string, decimals: nat): Option<nat> {
    var value := Trim(input);
    if value == "" || value[0] == '-' then None
    else if !AllDigits(Whole(value)) || !AllDigits(Fraction(value)) || |Fraction(value)| > decimals then None
    else BaseUnits(Whole(value), Fraction(value), decimals)
  }

  /** The build with overflow checks panics where the scale does not fit, once the whole part has been read. */
  predicate Panics(input: string, decimals: nat) {
    var value := Trim(input);
    && value != "" && value[0] != '-'
    && AllDigits(Whole(value)) && AllDigits(Fraction(value)) && |Fraction(value)| <= decimals
    && ParseU64(Whole(value)).Some? && Pow10(decimals) > U64_MAX
  }

  // ---- What an amount denotes --------------------------------------------

  /** Digits, optionally a point and at most `decimals` more digits. */
  predicate WellFormed(s: string, decimals: nat) {
    Whole(s) != "" && AllDigits(Whole(s)) && AllDigits(Fraction(s)) && |Fraction(s)| <= decimals
  }

  /** The digits read without the point, scaled to base units. */
  function Denoted(s: string, decimals: nat): nat
    requires WellFormed(s, decimals)
  {
    assert AllDigits(Whole(s) + Fraction(s));
    Scale(Value(Whole(s) + Fraction(s)), decimals - |Fraction(s)|)
  }

  lemma DenotedSplits(s: string, decimals: nat)
    requires WellFormed(s, decimals)
    ensures Denoted(s, decimals) == Scale(Value(Whole(s)), decimals) + Scale(Value(Fraction(s)), decimals - |Fraction(s)|)
  {
    var w, f := Whole(s), Fraction(s);
    var q := decimals - |f|;
    ValueJoins(w, f);
    ScaleAdds(Scale(Value(w), |f|), Value(f), q);
    ScaleTwice(Value(w), |f|, q);
  }

  lemma FractionFits(f: string, decimals: nat)
    requires AllDigits(f) && |f| <= decimals <= 19
    ensures Scale(Value(f), decimals - |f|) < Pow10(decimals) <= U64_MAX
  {
    PaddedValue(f, decimals - |f|);
    ValueBound(f + Zeros(decimals - |f|));
    PowFits(decimals);
  }

  lemma TenToNineteen()
    ensures Pow10(19) == 10000000000000000000
  {
    assert Pow10(5) == 100000;
    assert Pow10(10) == 10000000000;
    assert Pow10(15) == 1000000000000000;
  }

  /** The scale fits a u64 exactly up to 19 decimals, and then does not wrap. */
  lemma PowFits(decimals: nat)
    ensures Pow10(decimals) <= U64_MAX <==> decimals <= 19
    ensures decimals <= 19 ==> WrappedPow10(decimals) == Pow10(decimals)
  {
    TenToNineteen();
    if decimals <= 19 { PowGrows(decimals, 19); } else { PowGrows(20, decimals); }
  }

  /** What the source computes from the two groups of digits, the scale wrapped. */
  function WrappedSum(s: string, decimals: nat): nat
    requires WellFormed(s, decimals)
  {
    Value(Whole(s)) * WrappedPow10(decimals) + Scale(Value(Fraction(s)), decimals - |Fraction(s)|)
  }

  lemma MulGrows(a: nat, b: nat)
    ensures b > 0 ==> a <= a * b
    ensures 0 <= a * b
  {
  }

  lemma BaseUnitsIs(s: string, decimals: nat)
    requires WellFormed(s, decimals)
    ensures BaseUnits(Whole(s), Fraction(s), decimals) ==
              if Value(Whole(s)) <= U64_MAX && WrappedSum(s, decimals) <= U64_MAX then Some(WrappedSum(s, decimals)) else None
  {
    var w, f := Whole(s), Fraction(s);
    PaddedValue(f, decimals - |f|);
    MulGrows(Value(w), WrappedPow10(decimals));
    if f == "" { ScaleZero(decimals); }
  }

  /** The result for every input and every number of decimals, in a build without overflow checks. */
  lemma WrappedResult(input: string, decimals: nat)
    ensures var s := Trim(input);
            DecimalToBase(input, decimals) ==
              if WellFormed(s, decimals) && Value(Whole(s)) <= U64_MAX && WrappedSum(s, decimals) <= U64_MAX
              then Some(WrappedSum(s, decimals)) else None
  {
    var s := Trim(input);
    if WellFormed(s, decimals) {
      assert Whole(s)[0] == s[0];
      BaseUnitsIs(s, decimals);
    }
  }

  /** The number of base units the trimmed amount denotes, or none if it is malformed or exceeds a u64. */
  function Exact(input: string, decimals: nat): Option<nat> {
    var s := Trim(input);
    if WellFormed(s, decimals) && Denoted(s, decimals) <= U64_MAX then Some(Denoted(s, decimals)) else None
  }

  lemma ExactUpTo19(s: string, decimals: nat)
    requires WellFormed(s, decimals) && decimals <= 19
    ensures WrappedSum(s, decimals) == Denoted(s, decimals) && Value(Whole(s)) <= Denoted(s, decimals)
  {
    DenotedSplits(s, decimals);
    PowFits(decimals);
    ScaleIsProduct(Value(Whole(s)), decimals);
    ScaleGrows(Value(Whole(s)), decimals);
  }

  /** Above 19 decimals a whole part alone exceeds a u64. */
  lemma DenotedAbove19(s: string, decimals: nat)
    requires WellFormed(s, decimals) && decimals > 19
    ensures Value(Whole(s)) == 0 ==> Denoted(s, decimals) == WrappedSum(s, decimals)
    ensures Value(Whole(s)) > 0 ==> Denoted(s, decimals) > U64_MAX
  {
    var w := Value(Whole(s));
    DenotedSplits(s, decimals);
    ScaleIsProduct(w, decimals);
    PowFits(decimals);
    MulGrows(Pow10(decimals), w);
  }

  /**
   For every input and every number of decimals: the result is the exact number of
   base units, and none exactly when the amount is malformed, has too many decimal
   places or exceeds a u64, if and only if the scale fits, or the amount is malformed
   or has no whole part, or the wrapped sum overflows as well.
   */
  lemma DecimalIsExact(input: string, decimals: nat)
    ensures var s := Trim(input);
            DecimalToBase(input, decimals) == Exact(input, decimals) <==>
              || decimals <= 19
              || !WellFormed(s, decimals)
              || Value(Whole(s)) == 0
              || Value(Whole(s)) > U64_MAX
              || WrappedSum(s, decimals) > U64_MAX
  {
    var s := Trim(input);
    WrappedResult(input, decimals);
    if WellFormed(s, decimals) {
      if decimals <= 19 { ExactUpTo19(s, decimals); } else { DenotedAbove19(s, decimals); }
    }
  }

  /** With overflow checks the call panics exactly above 19 decimals, on a well-formed amount whose whole part fits. */
  lemma PanicsExactly(input: string, decimals: nat)
    ensures Panics(input, decimals) <==>
            decimals > 19 && WellFormed(Trim(input), decimals) && Value(Whole(Trim(input))) <= U64_MAX
  {
    var s := Trim(input);
    PowFits(decimals);
    if WellFormed(s, decimals) { assert Whole(s)[0] == s[0]; }
  }

  // ---- From 64 decimals on the scale is gone -----------------------------

  function Pow(b: nat, n: nat): nat {
    if n == 0 then 1 else b * Pow(b, n - 1)
  }

  lemma Regroup(x: nat, y: nat)
    ensures 10 * (x * y) == (2 * x) * (5 * y)
  {
  }

  lemma {:induction false} TenIsTwoFive(n: nat)
    ensures Pow10(n) == Pow(2, n) * Pow(5, n)
  {
    if n > 0 {
      TenIsTwoFive(n - 1);
      Regroup(Pow(2, n - 1), Pow(5, n - 1));
    }
  }

  lemma TwoTo64()
    ensures Pow(2, 64) == TWO_64
  {
    assert Pow(2, 8) == 256;
    assert Pow(2, 16) == 65536;
    assert Pow(2, 24) == 16777216;
    assert Pow(2, 32) == 4294967296;
    assert Pow(2, 40) == 1099511627776;
    assert Pow(2, 48) == 281474976710656;
    assert Pow(2, 56) == 72057594037927936;
  }

  lemma MultipleIsZero(a: nat, x: nat)
    requires x == TWO_64 * a
    ensures x % TWO_64 == 0
  {
  }

  lemma TenTimesMultiple(x: nat)
    requires x % TWO_64 == 0
    ensures (10 * x) % TWO_64 == 0
  {
    var q := x / TWO_64;
    assert x == TWO_64 * q;
    MultipleIsZero(10 * q, 10 * x);
  }

  lemma {:induction false} ScaleGone(decimals: nat)
    requires decimals >= 64
    ensures WrappedPow10(decimals) == 0
  {
    if decimals == 64 {
      TenIsTwoFive(64);
      TwoTo64();
      MultipleIsZero(Pow(5, 64), Pow10(64));
    } else {
      ScaleGone(decimals - 1);
      TenTimesMultiple(Pow10(decimals - 1));
    }
  }

  /** So there every whole amount that can be read is worth nothing. */
  lemma WholeAmountLost(input: string, decimals: nat)
    requires decimals >= 64 && WellFormed(Trim(input), decimals) && Fraction(Trim(input)) == ""
    requires 0 < Value(Whole(Trim(input))) <= U64_MAX
    ensures DecimalToBase(input, decimals) == Some(0) && Exact(input, decimals) == None
  {
    var s := Trim(input);
    WrappedResult(input, decimals);
    ScaleGone(decimals);
    DenotedAbove19(s, decimals);
    ScaleZero(decimals);
  }

  /** One token of 64 decimals reads as no base units. */
  lemma OneTokenIsLost()
    ensures DecimalToBase("1", 64) == Some(0) && Exact("1", 64) == None
  {
    TrimIsIdentity("1");
    assert Point("1") == 1 by { assert "1"[1..] == ""; }
    assert Whole("1") == "1" && Fraction("1") == "";
    assert Value("1") == 1 by { assert "1"[..0] == ""; }
    WholeAmountLost("1", 64);
  }

  // ---- The digit-by-digit parser -----------------------------------------

  /** The loop's sum over the first `n` digits, each times the power of its place. */
  function MicroFraction(f: string, n: nat): nat
    requires AllDigits(f) && n <= |f| <= 6
  {
    if n == 0 then 0 else MicroFraction(f, n - 1) + DigitOf(f[n - 1]) * Pow10(6 - n)
  }

  lemma {:induction false} MicroFractionIs(f: string, n: nat)
    requires AllDigits(f) && n <= |f| <= 6
    ensures MicroFraction(f, n) == Scale(Value(f[..n]), 6 - n)
  {
    if n == 0 {
      ScaleZero(6);
    } else {
      var v, d := Value(f[..n - 1]), DigitOf(f[n - 1]);
      MicroFractionIs(f, n - 1);
      assert f[..n] == f[..n - 1] + [f[n - 1]];
      ValuePush(f[..n - 1], f[n - 1]);
      ScaleAdds(Scale(v, 1), d, 6 - n);
      ScaleTwice(v, 1, 6 - n);
      ScaleIsProduct(d, 6 - n);
    }
  }

  /** The amount as written, in millionths, if it is one and fits. */
  function MicroUnits(input: string): Option<nat> {
    if WellFormed(input, 6) && Denoted(input, 6) <= U64_MAX then Some(Denoted(input, 6)) else None
  }

  method ParseDecimalMicroUnits(input: string) returns (r: Option<nat>)
    ensures r == MicroUnits(input)
  {
    var whole, fraction := Whole(input), Fraction(input);
    if input == "" || input[0] == '-' || whole == "" || !AllDigits(whole) || !AllDigits(fraction) || |fraction| > 6 {
      return None;
    }
    DenotedSplits(input, 6);
    FractionFits(fraction, 6);
    ScaleGrows(Value(whole), 6);
    ScaleIsProduct(Value(whole), 6);
    assert Pow10(6) == 1000000;
    var w := ParseU64(whole);
    if w.None? {
      return None;
    }
    var wholeUnits := CheckedMul(w.value, 1000000);
    if wholeUnits.None? {
      return None;
    }
    var units := 0;
    for i := 0 to |fraction|
      invariant units == MicroFraction(fraction, i)
    {
      var place := Pow10(5 - i);
      units := units + DigitOf(fraction[i]) * place;
    }
    MicroFractionIs(fraction, |fraction|);
    assert fraction[..|fraction|] == fraction;
    r := CheckedAdd(wholeUnits.value, units);
  }

  lemma SpaceIsNoDigit(s: string, decimals: nat)
    requires WellFormed(s, decimals)
    ensures Bare(s)
  {
    assert Whole(s)[0] == s[0];
    var last := |s| - 1;
    if Point(s) == |s| {
      assert Whole(s)[last] == s[last];
    } else if Fraction(s) != "" {
      assert Fraction(s)[|Fraction(s)| - 1] == s[last];
    } else {
      assert s[last] == '.';
    }
  }

  /**
   The two parsers agree at six decimals exactly on inputs without surrounding white
   space and on those that denote no amount a u64 holds even when trimmed.
   */
  lemma ParsersAgree(input: string)
    ensures var s := Trim(input);
            MicroUnits(input) == DecimalToBase(input, 6) <==>
              Bare(input) || !WellFormed(s, 6) || Denoted(s, 6) > U64_MAX
  {
    DecimalIsExact(input, 6);
    TrimIsIdentity(input);
    if WellFormed(input, 6) {
      SpaceIsNoDigit(input, 6);
    }
  }
}
