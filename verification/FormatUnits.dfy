/**
 Token amounts in the debugger: `formatUnits` (web-ui/src/lib/format.ts) writes base
 units for people and `stableBaseUnits` (web-ui/src/lib/channels.ts) reads them back.
 */
module FormatUnits {
  import opened Common
  import opened DigitText

  const U64_MAX_TEXT: string := "18446744073709551615"
  const USDC_MINT: string := "EPjFWdd5AufqSSqeM2qN1xzybapC8G4wEGGkZwyTDt1v"

  // ---- JavaScript text ---------------------------------------------------

  /** White space as `\s` and `trim` understand it in JavaScript. */
  predicate IsSpace(c: char) {
    || '\U{0009}' <= c <= '\U{000D}' || c == ' ' || c == '\U{00A0}' || c == '\U{1680}' || '\U{2000}' <= c <= '\U{200A}'
    || c == '\U{2028}' || c == '\U{2029}' || c == '\U{202F}' || c == '\U{205F}' || c == '\U{3000}' || c == '\U{FEFF}'
  }

  predicate NoSpace(s: string) {
    forall k :: 0 <= k < |s| ==> !IsSpace(s[k])
  }

  predicate AllSpace(s: string) {
    forall k :: 0 <= k < |s| ==> IsSpace(s[k])
  }

  function TrimStart(s: string): string {
    if s != "" && IsSpace(s[0]) then TrimStart(s[1..]) else s
  }

  function TrimEnd(s: string): string {
    if s != "" && IsSpace(s[|s| - 1]) then TrimEnd(s[..|s| - 1]) else s
  }

  /** Decimal digits without leading zeros, as `toString` writes them. */
  function ToText(n: nat): (s: string)
    ensures AllDigits(s) && s != "" && Value(s) == n
  {
    var c := '0' + (n % 10) as char;
    if n < 10 then [c]
    else
      ValuePush(ToText(n / 10), c);
      ToText(n / 10) + [c]
  }

  function PadStart(s: string, n: nat): string {
    if |s| < n then Zeros(n - |s|) + s else s
  }

  function PadEnd(s: string, n: nat): string {
    if |s| < n then s + Zeros(n - |s|) else s
  }

  function StripZeros(s: string): string {
    if s != "" && s[|s| - 1] == '0' then StripZeros(s[..|s| - 1]) else s
  }

  // ---- Writing -----------------------------------------------------------

  function ShortAddr(s: string): string {
    if s == "" then "pending" else if |s| <= 14 then s else s[..5] + "..." + s[|s| - 5..]
  }

  function CurrencyLabel(currency: string): string {
    if currency == "" || currency == USDC_MINT then "USDC" else if |currency| > 12 then ShortAddr(currency) else currency
  }

  function Quotient(x: nat, d: nat): (q: nat)
    requires d > 0
  {
    x / d
  }

  function Remainder(x: nat, d: nat): (r: nat)
    requires d > 0
    ensures r < d && Quotient(x, d) * d + r == x
  {
    x % d
  }

  function FractionText(fraction: nat, decimals: nat): string {
    if fraction == 0 then "" else StripZeros(PadStart(ToText(fraction), decimals))
  }

  /** The point is written only before a fraction. */
  function Written(whole: string, fraction: string): string {
    whole + if fraction == "" then "" else "." + fraction
  }

  function Amount(value: nat, decimals: nat): string {
    var fraction := Remainder(value, Pow10(decimals));
    var whole := ToText(Quotient(value, Pow10(decimals)));
    if fraction == 0 then whole else whole + "." + FractionText(fraction, decimals)
  }

  function FormatUnits(raw: Option<string>, decimals: nat, currency: string, missing: string): string {
    if raw.None? || raw.value == "" then missing
    else if raw.value == U64_MAX_TEXT then "unbounded"
    else if !AllDigits(raw.value) then raw.value
    else Amount(Value(raw.value), decimals) + " " + CurrencyLabel(currency)
  }

  // ---- Reading -----------------------------------------------------------

  function DigitRun(s: string): (n: nat)
    ensures n <= |s| && AllDigits(s[..n]) && (n < |s| ==> !IsDigit(s[n]))
  {
    if s == "" || !IsDigit(s[0]) then 0
    else
      var n := 1 + DigitRun(s[1..]);
      assert forall k :: 0 <= k < n ==> s[k] == if k == 0 then s[0] else s[1..][k - 1];
      n
  }

  function SpaceRun(s: string): (n: nat)
    ensures n <= |s| && AllSpace(s[..n]) && (n < |s| ==> !IsSpace(s[n]))
  {
    if s == "" || !IsSpace(s[0]) then 0
    else
      var n := 1 + SpaceRun(s[1..]);
      assert forall k :: 0 <= k < n ==> s[k] == if k == 0 then s[0] else s[1..][k - 1];
      n
  }

  /** Nothing, or white space and one word. */
  predicate TailOk(s: string) {
    s == "" || (0 < SpaceRun(s) < |s| && NoSpace(s[SpaceRun(s)..]))
  }

  /** Digits, optionally a point and digits, then a tail: the two digit groups if `s` has that form. */
  function Match(s: string): Option<(string, string)> {
    var n := DigitRun(s);
    var rest := s[n..];
    if n == 0 then None
    else if rest != "" && rest[0] == '.' then
      var m := DigitRun(rest[1..]);
      if m == 0 || !TailOk(rest[1 + m..]) then None else Some((s[..n], rest[1..][..m]))
    else if TailOk(rest) then Some((s[..n], ""))
    else None
  }

  /** Both digit groups in base units; extra decimal places are cut off. */
  function Combine(whole: string, fraction: string, decimals: nat): Option<nat> {
    var cut := if |fraction| <= decimals then fraction else fraction[..decimals];
    if AllDigits(whole) && AllDigits(PadEnd(cut, decimals))
    then Some(Scale(Value(whole), decimals) + Value(PadEnd(cut, decimals)))
    else None
  }

  function StableBaseUnits(value: Option<string>, decimals: nat): Option<nat> {
    if value.None? || value.value == "" then None
    else if AllDigits(value.value) then Some(Value(value.value))
    else
      match Match(TrimEnd(TrimStart(value.value)))
      case None => None
      case Some((whole, fraction)) => Combine(whole, fraction, decimals)
  }

  // ---- The pieces --------------------------------------------------------

  lemma {:induction false} RunOf(d: string, rest: string)
    requires AllDigits(d) && (rest != "" ==> !IsDigit(rest[0]))
    ensures DigitRun(d + rest) == |d|
  {
    if d == "" {
      assert d + rest == rest;
    } else {
      assert (d + rest)[1..] == d[1..] + rest;
      RunOf(d[1..], rest);
    }
  }

  lemma MatchWhole(s: string, w: string, tail: string)
    requires s == w + tail && w != "" && AllDigits(w) && (tail != "" ==> IsSpace(tail[0]))
    ensures Match(s) == if TailOk(tail) then Some((w, "")) else None
  {
    RunOf(w, tail);
    assert s[..|w|] == w && s[|w|..] == tail;
  }

  lemma MatchBoth(s: string, w: string, f: string, tail: string)
    requires s == w + ("." + (f + tail))
    requires w != "" && AllDigits(w) && f != "" && AllDigits(f) && (tail != "" ==> IsSpace(tail[0]))
    ensures Match(s) == if TailOk(tail) then Some((w, f)) else None
  {
    var rest := "." + (f + tail);
    RunOf(w, rest);
    assert s[..|w|] == w && s[|w|..] == rest;
    assert rest[1..] == f + tail;
    RunOf(f, tail);
    assert (f + tail)[..|f|] == f;
    assert rest[1 + |f|..] == tail;
  }

  /** An amount followed by a tail is recognised exactly when the tail is. */
  lemma MatchAmount(w: string, f: string, tail: string)
    requires w != "" && AllDigits(w) && AllDigits(f) && (tail != "" ==> IsSpace(tail[0]))
    ensures Match(Written(w, f) + tail) == if TailOk(tail) then Some((w, f)) else None
  {
    var s := Written(w, f) + tail;
    if f == "" {
      assert s == w + tail;
      MatchWhole(s, w, tail);
    } else {
      assert s == w + ("." + (f + tail));
      MatchBoth(s, w, f, tail);
    }
  }

  lemma Regroup(a: string, b: string, c: string)
    ensures (a + b) + c == a + (b + c)
  {
  }

  lemma {:induction false} StripThenPad(s: string) returns (z: nat)
    requires AllDigits(s)
    ensures |StripZeros(s)| + z == |s| && AllDigits(StripZeros(s))
    ensures StripZeros(s) + Zeros(z) == s
  {
    z := 0;
    if s != "" && s[|s| - 1] == '0' {
      var front := s[..|s| - 1];
      var y := StripThenPad(front);
      z := y + 1;
      assert s == front + "0";
      Regroup(StripZeros(front), Zeros(y), "0");
    }
  }

  lemma StrippedIsNotEmpty(s: string)
    requires AllDigits(s) && Value(s) > 0
    ensures StripZeros(s) != ""
  {
    var z := StripThenPad(s);
    if StripZeros(s) == "" {
      assert s == "" + Zeros(z) == Zeros(z);
      ZerosAreZero(z);
    }
  }

  lemma PadStartValue(s: string, n: nat)
    requires AllDigits(s)
    ensures AllDigits(PadStart(s, n)) && Value(PadStart(s, n)) == Value(s) && |PadStart(s, n)| == Max(|s|, n)
  {
    if |s| < n {
      ValueJoins(Zeros(n - |s|), s);
      ZerosAreZero(n - |s|);
      ScaleZero(|s|);
    }
  }

  lemma {:induction false} ToTextShort(n: nat, d: nat)
    requires n < Pow10(d) && d > 0
    ensures |ToText(n)| <= d
  {
    if n >= 10 {
      assert d > 1;
      ToTextShort(n / 10, d - 1);
    }
  }

  /** The fraction as written is the fraction's digits padded to `decimals`, less trailing zeros. */
  lemma FractionReads(fraction: nat, decimals: nat)
    requires 0 < fraction < Pow10(decimals)
    ensures var f := FractionText(fraction, decimals);
            && f != "" && AllDigits(f) && |f| <= decimals
            && AllDigits(PadEnd(f, decimals)) && Value(PadEnd(f, decimals)) == fraction
  {
    var padded := PadStart(ToText(fraction), decimals);
    PadStartValue(ToText(fraction), decimals);
    ToTextShort(fraction, decimals);
    var z := StripThenPad(padded);
    StrippedIsNotEmpty(padded);
    PadUndoesStrip(padded);
  }

  lemma PadBack(s: string, f: string, z: nat)
    requires |f| + z == |s| && f + Zeros(z) == s
    ensures PadEnd(f, |s|) == s
  {
    if z == 0 {
      assert Zeros(0) == "";
      assert f + "" == f;
    } else {
      assert |s| - |f| == z;
    }
  }

  lemma PadUndoesStrip(s: string)
    requires AllDigits(s)
    ensures PadEnd(StripZeros(s), |s|) == s
  {
    var z := StripThenPad(s);
    PadBack(s, StripZeros(s), z);
  }

  lemma {:induction false} TrimEndStops(s: string, t: string)
    requires s != "" && !IsSpace(s[|s| - 1])
    ensures TrimEnd(s + t) == s + TrimEnd(t)
  {
    if t == "" {
      assert s + t == s && s + "" == s;
    } else {
      assert (s + t)[..|s + t| - 1] == s + t[..|t| - 1];
      if IsSpace(t[|t| - 1]) { TrimEndStops(s, t[..|t| - 1]); }
    }
  }

  lemma {:induction false} TrimEndKeepsFirst(s: string)
    ensures TrimEnd(s) <= s && (TrimEnd(s) != "" ==> TrimEnd(s)[0] == s[0] && !IsSpace(TrimEnd(s)[|TrimEnd(s)| - 1]))
  {
    if s != "" && IsSpace(s[|s| - 1]) { TrimEndKeepsFirst(s[..|s| - 1]); }
  }

  lemma ZeroPads(decimals: nat)
    ensures AllDigits(PadEnd("", decimals)) && Value(PadEnd("", decimals)) == 0
  {
    ZerosAreZero(decimals);
    assert "" + Zeros(decimals) == Zeros(decimals);
  }

  // ---- Reading back what was written -------------------------------------

  lemma CombineIs(w: string, f: string, decimals: nat, whole: nat, fraction: nat)
    requires AllDigits(w) && Value(w) == whole && |f| <= decimals
    requires AllDigits(PadEnd(f, decimals)) && Value(PadEnd(f, decimals)) == fraction
    ensures Combine(w, f, decimals) == Some(Scale(whole, decimals) + fraction)
  {
  }

  lemma WholeReads(whole: nat, decimals: nat)
    ensures Combine(ToText(whole), "", decimals) == Some(Scale(whole, decimals))
  {
    ZeroPads(decimals);
    CombineIs(ToText(whole), "", decimals, whole, 0);
  }

  lemma BothRead(whole: nat, fraction: nat, decimals: nat)
    requires 0 < fraction < Pow10(decimals)
    ensures Combine(ToText(whole), FractionText(fraction, decimals), decimals) == Some(Scale(whole, decimals) + fraction)
  {
    FractionReads(fraction, decimals);
    CombineIs(ToText(whole), FractionText(fraction, decimals), decimals, whole, fraction);
  }

  /** The two groups of digits written for a whole and a fraction are worth both together. */
  lemma GroupsRead(whole: nat, fraction: nat, decimals: nat)
    requires fraction < Pow10(decimals)
    ensures var f := FractionText(fraction, decimals);
            && AllDigits(f) && |f| <= decimals && (f == "" <==> fraction == 0)
            && Combine(ToText(whole), f, decimals) == Some(Scale(whole, decimals) + fraction)
  {
    if fraction > 0 {
      FractionReads(fraction, decimals);
      BothRead(whole, fraction, decimals);
    } else {
      WholeReads(whole, decimals);
    }
  }

  lemma AmountText(value: nat, decimals: nat)
    requires FractionText(Remainder(value, Pow10(decimals)), decimals) == "" <==> Remainder(value, Pow10(decimals)) == 0
    ensures Amount(value, decimals) ==
              Written(ToText(Quotient(value, Pow10(decimals))), FractionText(Remainder(value, Pow10(decimals)), decimals))
  {
    var w, f := ToText(Quotient(value, Pow10(decimals))), FractionText(Remainder(value, Pow10(decimals)), decimals);
    if f == "" { assert w + "" == w; } else { Regroup(w, ".", f); }
  }

  /** The written amount in two groups of digits, and what they are worth together. */
  lemma AmountParts(value: nat, decimals: nat) returns (w: string, f: string)
    ensures w != "" && AllDigits(w) && AllDigits(f) && |f| <= decimals
    ensures Amount(value, decimals) == Written(w, f)
    ensures Combine(w, f, decimals) == Some(value)
  {
    var q, r := Quotient(value, Pow10(decimals)), Remainder(value, Pow10(decimals));
    w, f := ToText(q), FractionText(r, decimals);
    GroupsRead(q, r, decimals);
    AmountText(value, decimals);
    ScaleIsProduct(q, decimals);
  }

  lemma TrimmedAmount(w: string, f: string, tail: string)
    requires w != "" && AllDigits(w) && AllDigits(f) && tail != "" && tail[0] == ' '
    ensures var s := Written(w, f) + tail;
            && s != "" && !AllDigits(s)
            && TrimEnd(TrimStart(s)) == Written(w, f) + TrimEnd(tail)
            && (TrimEnd(tail) != "" ==> IsSpace(TrimEnd(tail)[0]))
  {
    var text := Written(w, f);
    var s := text + tail;
    assert s[|text|] == ' ';
    assert s[0] == w[0] && TrimStart(s) == s;
    assert IsDigit(text[|text| - 1]);
    TrimEndStops(text, tail);
    TrimEndKeepsFirst(tail);
  }

  lemma WrittenReads(text: string, w: string, f: string, decimals: nat, tail: string)
    requires w != "" && AllDigits(w) && AllDigits(f) && |f| <= decimals && tail != "" && tail[0] == ' '
    requires text == Written(w, f)
    ensures StableBaseUnits(Some(text + tail), decimals) ==
              if TailOk(TrimEnd(tail)) then Combine(w, f, decimals) else None
  {
    TrimmedAmount(w, f, tail);
    MatchAmount(w, f, TrimEnd(tail));
  }

  lemma AmountReads(value: nat, decimals: nat, tail: string)
    requires tail != "" && tail[0] == ' '
    ensures StableBaseUnits(Some(Amount(value, decimals) + tail), decimals) ==
              if TailOk(TrimEnd(tail)) then Some(value) else None
  {
    var w, f := AmountParts(value, decimals);
    WrittenReads(Amount(value, decimals), w, f, decimals, tail);
  }

  // ---- Which labels can be read past -------------------------------------

  lemma {:induction false} TrimEndAll(s: string)
    requires AllSpace(s)
    ensures TrimEnd(s) == ""
  {
    if s != "" { TrimEndAll(s[..|s| - 1]); }
  }

  lemma {:induction false} TrimStartIs(s: string)
    ensures TrimStart(s) == s[SpaceRun(s)..]
  {
    if s != "" && IsSpace(s[0]) {
      TrimStartIs(s[1..]);
      assert s[1..][SpaceRun(s[1..])..] == s[SpaceRun(s)..];
    } else {
      assert s[0..] == s;
    }
  }

  lemma {:induction false} RunOfSpaces(a: string, b: string)
    requires AllSpace(a) && (b != "" ==> !IsSpace(b[0]))
    ensures SpaceRun(a + b) == |a|
  {
    if a == "" {
      assert a + b == b;
    } else {
      assert (a + b)[1..] == a[1..] + b;
      RunOfSpaces(a[1..], b);
    }
  }

  lemma {:induction false} TrimEndAfter(a: string, b: string)
    requires b != "" && !IsSpace(b[0])
    ensures TrimEnd(a + b) == a + TrimEnd(b) && TrimEnd(b) != "" && TrimEnd(b)[0] == b[0]
  {
    var ab := a + b;
    if |b| == 1 {
      assert TrimEnd(b) == b && ab[|ab| - 1] == b[0];
    } else if IsSpace(b[|b| - 1]) {
      assert ab[..|ab| - 1] == a + b[..|b| - 1];
      TrimEndAfter(a, b[..|b| - 1]);
    } else {
      assert ab[|ab| - 1] == b[|b| - 1];
    }
  }

  /** The label is at most one word: it has no white space between other characters. */
  predicate OneWord(text: string) {
    NoSpace(TrimEnd(TrimStart(text)))
  }

  /** An amount's label can be read past exactly when it is at most one word. */
  lemma LabelTail(text: string)
    ensures TailOk(TrimEnd(" " + text)) <==> OneWord(text)
  {
    var n := SpaceRun(text);
    TrimStartIs(text);
    var spaces, word := " " + text[..n], text[n..];
    assert " " + text == spaces + word;
    if word == "" {
      assert spaces + word == spaces;
      TrimEndAll(spaces);
    } else {
      TrimEndAfter(spaces, word);
      RunOfSpaces(spaces, TrimEnd(word));
      assert (spaces + TrimEnd(word))[|spaces|..] == TrimEnd(word);
    }
  }

  /**
   For every string of digits, every number of decimals and every currency, reading
   back the formatted amount gives the amount exactly when it is not the largest u64,
   which is written as a word, and the currency's label is at most one word.
   */
  lemma ReadsBackExactly(raw: string, decimals: nat, currency: string, missing: string)
    requires raw != "" && AllDigits(raw)
    ensures StableBaseUnits(Some(FormatUnits(Some(raw), decimals, currency, missing)), decimals) == Some(Value(raw))
            <==> raw != U64_MAX_TEXT && OneWord(CurrencyLabel(currency))
  {
    var text := CurrencyLabel(currency);
    if raw == U64_MAX_TEXT {
      Unbounded(decimals);
    } else {
      var a := Amount(Value(raw), decimals);
      assert a + " " + text == a + (" " + text);
      LabelTail(text);
      AmountReads(Value(raw), decimals, " " + text);
    }
  }

  lemma Unbounded(decimals: nat)
    ensures StableBaseUnits(Some("unbounded"), decimals) == None
  {
    var s := "unbounded";
    assert !IsDigit(s[0]);
    assert TrimStart(s) == s && TrimEnd(s) == s;
    assert DigitRun(s) == 0;
  }

  /** A label with white space in its middle makes the amount unreadable. */
  lemma SpacedLabel(value: nat, decimals: nat)
    ensures StableBaseUnits(Some(Amount(value, decimals) + " " + "US D"), decimals) == None
  {
    var tail := " US D";
    assert Amount(value, decimals) + " " + "US D" == Amount(value, decimals) + tail;
    AmountReads(value, decimals, tail);
    assert TrimEnd(tail) == tail;
    assert tail[1..][0] == 'U' && SpaceRun(tail) == 1 && IsSpace(tail[1..][2]);
  }
}
