/**
 Whole numbers and decimal amounts as text.
 */
module DecimalText {
  predicate IsDigit(c: char) {
    '0' <= c <= '9'
  }

  predicate Digits(s: string) {
    forall i :: 0 <= i < |s| ==> IsDigit(s[i])
  }

  function DigitValue(c: char): nat
    requires IsDigit(c)
  {
    c as int - '0' as int
  }

  function Digit(n: nat): (c: char)
    requires n < 10
    ensures IsDigit(c) && DigitValue(c) == n
  {
    ('0' as int + n) as char
  }

  function PrintNat(n: nat): (s: string)
    ensures Digits(s) && s != ""
  {
    if n < 10 then [Digit(n)] else PrintNat(n / 10) + [Digit(n % 10)]
  }

  function PrintInt(n: int): string {
    if n < 0 then "-" + PrintNat(-n) else PrintNat(n)
  }

  // Of no digits, zero.
  function ParseNat(s: string): nat
    requires Digits(s)
  {
    if s == "" then 0 else ParseNat(s[..|s| - 1]) * 10 + DigitValue(s[|s| - 1])
  }

  function Pow10(k: nat): (p: nat)
    ensures p >= 1
  {
    if k == 0 then 1 else 10 * Pow10(k - 1)
  }

  lemma {:induction false} ParsePrint(n: nat)
    ensures ParseNat(PrintNat(n)) == n
    decreases n
  {
    if n >= 10 {
      ParsePrint(n / 10);
      assert PrintNat(n)[..|PrintNat(n)| - 1] == PrintNat(n / 10);
    } else {
      assert PrintNat(n)[..0] == "";
    }
  }

  lemma {:induction false} PrintedLength(n: nat, k: nat)
    requires k >= 1
    ensures |PrintNat(n)| <= k <==> n < Pow10(k)
    decreases n
  {
    if n >= 10 && k >= 2 {
      PrintedLength(n / 10, k - 1);
    } else {
      OverTen(k);
    }
  }

  lemma OverTen(k: nat)
    requires k >= 1
    ensures Pow10(k) >= 10 && (k == 1 ==> Pow10(k) == 10)
  {
  }

  lemma {:induction false} NoLeadingZero(n: nat)
    ensures n >= 1 ==> PrintNat(n)[0] != '0'
    decreases n
  {
    if n >= 10 {
      NoLeadingZero(n / 10);
    }
  }

  function Zeros(k: nat): (s: string)
    ensures |s| == k && Digits(s) && forall i :: 0 <= i < k ==> s[i] == '0'
  {
    seq(k, _ => '0')
  }

  function PadStart(s: string, k: nat): string {
    if |s| >= k then s else Zeros(k - |s|) + s
  }

  function PadEnd(s: string, k: nat): string {
    if |s| >= k then s else s + Zeros(k - |s|)
  }

  function StripZeros(s: string): (r: string)
    ensures |r| <= |s| && r == s[..|r|]
    ensures r != "" ==> r[|r| - 1] != '0'
    ensures forall i :: |r| <= i < |s| ==> s[i] == '0'
  {
    if s != "" && s[|s| - 1] == '0' then StripZeros(s[..|s| - 1]) else s
  }

  lemma {:induction false} LeadingZeros(z: nat, s: string)
    requires Digits(s)
    ensures Digits(Zeros(z) + s) && ParseNat(Zeros(z) + s) == ParseNat(s)
    decreases |s|, z
  {
    if s == "" {
      assert Zeros(z) + s == Zeros(z);
      if z > 0 {
        assert Zeros(z)[..z - 1] == Zeros(z - 1) + "";
        LeadingZeros(z - 1, s);
      }
    } else {
      assert (Zeros(z) + s)[..|Zeros(z) + s| - 1] == Zeros(z) + s[..|s| - 1];
      LeadingZeros(z, s[..|s| - 1]);
    }
  }

  // ---- decimals ----

  function DotAt(s: string): (i: nat)
    ensures i <= |s| && (i < |s| ==> s[i] == '.') && forall j :: 0 <= j < i ==> s[j] != '.'
  {
    if s == "" || s[0] == '.' then 0 else 1 + DotAt(s[1..])
  }

  function Whole(s: string): string {
    s[..DotAt(s)]
  }

  // What stands between the first point and the next, if there is one.
  function Fraction(s: string): string {
    if DotAt(s) == |s| then "" else Whole(s[DotAt(s) + 1..])
  }

  predicate IsDecimal(s: string) {
    Digits(Whole(s)) && Digits(Fraction(s))
  }

  function Units(s: string, places: nat): nat
    requires IsDecimal(s)
  {
    ParseNat(Whole(s)) * Pow10(places) + ParseNat(PadEnd(Fraction(s), places))
  }

  function Quotient(n: nat, d: nat): (q: nat)
    requires d >= 1
  {
    n / d
  }

  function Remainder(n: nat, d: nat): (r: nat)
    requires d >= 1
    ensures r < d
  {
    n % d
  }

  lemma Divided(n: nat, d: nat)
    requires d >= 1
    ensures Quotient(n, d) * d + Remainder(n, d) == n
  {
  }

  function AfterPoint(fraction: string): string {
    if fraction == "" then "" else "." + fraction
  }

  function FractionOf(r: nat, places: nat): string {
    StripZeros(PadStart(PrintNat(r), places))
  }

  function Amount(n: nat, places: nat): string {
    PrintNat(Quotient(n, Pow10(places))) + AfterPoint(FractionOf(Remainder(n, Pow10(places)), places))
  }

  lemma DotIs(s: string, i: nat)
    requires i <= |s| && (i < |s| ==> s[i] == '.') && forall j :: 0 <= j < i ==> s[j] != '.'
    ensures DotAt(s) == i
  {
  }

  lemma DotAfter(whole: string, rest: string)
    requires Digits(whole) && (rest == "" || rest[0] == '.')
    ensures DotAt(whole + rest) == |whole| && Whole(whole + rest) == whole
  {
    forall j | 0 <= j < |whole| ensures (whole + rest)[j] != '.' {
      assert IsDigit(whole[j]);
    }
    DotIs(whole + rest, |whole|);
  }

  lemma FractionAfter(whole: string, fraction: string)
    requires Digits(whole) && Digits(fraction)
    ensures Whole(whole + AfterPoint(fraction)) == whole && Fraction(whole + AfterPoint(fraction)) == fraction
  {
    var rest := AfterPoint(fraction);
    DotAfter(whole, rest);
    DotAfter(fraction, "");
    assert fraction + "" == fraction;
    if fraction != "" {
      assert (whole + rest)[|whole| + 1..] == fraction;
    }
  }

  lemma PadStripped(s: string)
    ensures PadEnd(StripZeros(s), |s|) == s
  {
  }

  lemma Padded(s: string, k: nat)
    requires Digits(s) && |s| <= k
    ensures |PadStart(s, k)| == k && Digits(PadStart(s, k)) && ParseNat(PadStart(s, k)) == ParseNat(s)
  {
    if |s| < k {
      LeadingZeros(k - |s|, s);
    }
  }

  lemma PaddedRemainder(r: nat, places: nat)
    requires r < Pow10(places) && places >= 1
    ensures var s := PadStart(PrintNat(r), places);
            |s| == places && Digits(s) && ParseNat(s) == r
  {
    PrintedLength(r, places);
    ParsePrint(r);
    Padded(PrintNat(r), places);
  }

  // Printing an amount and reading it back gives the amount.
  lemma UnitsOfAmount(n: nat, places: nat)
    requires places >= 1
    ensures IsDecimal(Amount(n, places)) && Units(Amount(n, places), places) == n
  {
    var d := Pow10(places);
    var q, r := Quotient(n, d), Remainder(n, d);
    PaddedRemainder(r, places);
    FractionAfter(PrintNat(q), FractionOf(r, places));
    ParsePrint(q);
    PadStripped(PadStart(PrintNat(r), places));
    Divided(n, d);
  }

  // Equal amounts print equally and different ones differently.
  lemma AmountsAreExact(a: nat, b: nat, places: nat)
    requires places >= 1
    ensures Amount(a, places) == Amount(b, places) <==> a == b
  {
    UnitsOfAmount(a, places);
    UnitsOfAmount(b, places);
  }

  // ---- rates ----

  const RATE_PLACES := 9
  const MONEY_PLACES := 15

  // At most nine digits without a leading zero, and at most nine after the point.
  predicate IsRate(s: string) {
    && Digits(Whole(s)) && 1 <= |Whole(s)| <= 9 && (|Whole(s)| > 1 ==> s[0] != '0')
    && (DotAt(s) < |s| ==> Digits(s[DotAt(s) + 1..]) && 1 <= |s| - DotAt(s) - 1 <= 9)
  }

  lemma RateIsDecimal(s: string)
    requires IsRate(s)
    ensures IsDecimal(s)
  {
    if DotAt(s) < |s| {
      DotAfter(s[DotAt(s) + 1..], "");
      assert s[DotAt(s) + 1..] + "" == s[DotAt(s) + 1..];
    }
  }

  // What is printed at nine places is a rate exactly below a billion.
  lemma RateFits(n: nat)
    ensures IsRate(Amount(n, RATE_PLACES)) <==> n < Pow10(18)
  {
    var d := Pow10(RATE_PLACES);
    var q, r := Quotient(n, d), Remainder(n, d);
    var fraction := FractionOf(r, RATE_PLACES);
    PaddedRemainder(r, RATE_PLACES);
    RateShape(q, fraction);
    PrintedLength(q, 9);
    Billions(n);
  }

  lemma Billions(n: nat)
    ensures Quotient(n, Pow10(9)) < Pow10(9) <==> n < Pow10(18)
  {
    assert Pow10(9) == 1000000000;
    assert Pow10(18) == 1000000000000000000;
  }

  lemma RateShape(q: nat, fraction: string)
    requires Digits(fraction) && |fraction| <= 9
    ensures IsRate(PrintNat(q) + AfterPoint(fraction)) <==> |PrintNat(q)| <= 9
  {
    var s := PrintNat(q) + AfterPoint(fraction);
    DotAfter(PrintNat(q), AfterPoint(fraction));
    NoLeadingZero(q);
    if fraction != "" {
      assert s[DotAt(s) + 1..] == fraction;
    }
  }
}
