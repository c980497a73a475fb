/** Strings of decimal digits and the numbers they write. */
module DigitText {
  predicate IsDigit(c: char) {
    '0' <= c <= '9'
  }

  predicate AllDigits(s: string) {
    forall k :: 0 <= k < |s| ==> IsDigit(s[k])
  }

  function DigitOf(c: char): nat
    requires IsDigit(c)
  {
    (c - '0') as nat
  }

  function Value(s: string): nat
    requires AllDigits(s)
  {
    if s == "" then 0 else Value(s[..|s| - 1]) * 10 + DigitOf(s[|s| - 1])
  }

  function Pow10(n: nat): (r: nat)
    ensures r >= 1
  {
    if n == 0 then 1 else 10 * Pow10(n - 1)
  }

  function Zeros(n: nat): (s: string)
    ensures |s| == n && AllDigits(s)
  {
    if n == 0 then "" else Zeros(n - 1) + "0"
  }

  /** `x` followed by `n` zeros. */
  function Scale(x: nat, n: nat): nat {
    if n == 0 then x else 10 * Scale(x, n - 1)
  }

  lemma TimesTen(x: nat, p: nat)
    ensures x * (10 * p) == 10 * (x * p)
  {
  }

  lemma {:induction false} ScaleIsProduct(x: nat, n: nat)
    ensures Scale(x, n) == x * Pow10(n)
  {
    if n > 0 {
      ScaleIsProduct(x, n - 1);
      TimesTen(x, Pow10(n - 1));
    }
  }

  lemma {:induction false} ScaleAdds(x: nat, y: nat, n: nat)
    ensures Scale(x + y, n) == Scale(x, n) + Scale(y, n)
  {
    if n > 0 { ScaleAdds(x, y, n - 1); }
  }

  lemma {:induction false} ScaleTwice(x: nat, a: nat, b: nat)
    ensures Scale(Scale(x, a), b) == Scale(x, a + b)
  {
    if b > 0 { ScaleTwice(x, a, b - 1); }
  }

  lemma {:induction false} ScaleGrows(x: nat, n: nat)
    ensures x <= Scale(x, n)
  {
    if n > 0 { ScaleGrows(x, n - 1); }
  }

  lemma {:induction false} ScaleZero(n: nat)
    ensures Scale(0, n) == 0 && Scale(1, n) == Pow10(n)
  {
    if n > 0 { ScaleZero(n - 1); }
  }

  lemma ValuePush(s: string, c: char)
    requires AllDigits(s) && IsDigit(c)
    ensures AllDigits(s + [c]) && Value(s + [c]) == Value(s) * 10 + DigitOf(c)
  {
    assert (s + [c])[..|s|] == s;
  }

  /** Writing two numbers side by side. */
  lemma {:induction false} ValueJoins(a: string, b: string)
    requires AllDigits(a) && AllDigits(b)
    ensures AllDigits(a + b) && Value(a + b) == Scale(Value(a), |b|) + Value(b)
  {
    if b == "" {
      assert a + b == a;
    } else {
      var n := |b| - 1;
      ValueJoins(a, b[..n]);
      assert a + b == (a + b[..n]) + [b[n]];
      ValuePush(a + b[..n], b[n]);
    }
  }

  lemma {:induction false} ZerosAreZero(n: nat)
    ensures Value(Zeros(n)) == 0
  {
    if n > 0 {
      ZerosAreZero(n - 1);
      ValuePush(Zeros(n - 1), '0');
    }
  }

  /** Padding with zeros on the right scales. */
  lemma PaddedValue(s: string, n: nat)
    requires AllDigits(s)
    ensures AllDigits(s + Zeros(n)) && Value(s + Zeros(n)) == Scale(Value(s), n)
  {
    ValueJoins(s, Zeros(n));
    ZerosAreZero(n);
  }

  lemma {:induction false} ValueBound(s: string)
    requires AllDigits(s)
    ensures Value(s) < Pow10(|s|)
  {
    if s != "" { ValueBound(s[..|s| - 1]); }
  }

  lemma {:induction false} PowGrows(a: nat, b: nat)
    requires a <= b
    ensures Pow10(a) <= Pow10(b)
  {
    if a < b { PowGrows(a, b - 1); }
  }
}
