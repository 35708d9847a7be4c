/**
 Session token counts and the share of the prompt that came from the cache.
 */
module Usage {
  import opened DecimalText
  import opened Options
  import opened TurnLedger

  function SafeCount(value: Option<int>): nat {
    if value.Some? && value.value > 0 then value.value else 0
  }

  function ExactSum(left: Option<int>, right: Option<int>): Option<int> {
    if left.None? || right.None? || !IsTokenCount(left.value) || !IsTokenCount(right.value)
       || left.value + right.value > MAX_SAFE_INTEGER then None
    else Some(left.value + right.value)
  }

  function ExactCount(value: Option<int>): Option<int> {
    if value.Some? && IsTokenCount(value.value) then value else None
  }

  function ExactUsageTotal(usage: TokenUsage): Option<int> {
    if usage.totalTokens.Some? then ExactCount(usage.totalTokens)
    else
      ExactSum(ExactSum(ExactSum(ExactCount(Some(usage.inputTokens)), ExactCount(Some(usage.outputTokens))),
                        usage.cacheReadTokens), usage.cacheWriteTokens)
  }

  function AddTokenUsage(previous: Option<TokenUsage>, next: TokenUsage): TokenUsage {
    match previous
    case None =>
      TokenUsage(SafeCount(Some(next.inputTokens)), SafeCount(Some(next.outputTokens)), ExactUsageTotal(next),
                 Some(SafeCount(next.cacheReadTokens)), Some(SafeCount(next.cacheWriteTokens)),
                 Some(SafeCount(next.reasoningTokens)))
    case Some(p) =>
      TokenUsage(SafeCount(Some(p.inputTokens)) + SafeCount(Some(next.inputTokens)),
                 SafeCount(Some(p.outputTokens)) + SafeCount(Some(next.outputTokens)),
                 ExactSum(p.totalTokens, ExactUsageTotal(next)),
                 Some(SafeCount(p.cacheReadTokens) + SafeCount(next.cacheReadTokens)),
                 Some(SafeCount(p.cacheWriteTokens) + SafeCount(next.cacheWriteTokens)),
                 Some(SafeCount(p.reasoningTokens) + SafeCount(next.reasoningTokens)))
  }

  // The three prompt-side buckets are disjoint.
  function BilledInputTokens(usage: TokenUsage): nat {
    SafeCount(Some(usage.inputTokens)) + SafeCount(usage.cacheReadTokens) + SafeCount(usage.cacheWriteTokens)
  }

  predicate IsSafe(n: int) {
    -MAX_SAFE_INTEGER <= n <= MAX_SAFE_INTEGER
  }

  // ---- what the percentage should be ----

  // The hit percentage, rounded half up, in units of the last of `places` decimals.
  function RoundedAt(hits: nat, total: nat, places: nat): nat
    requires total >= 1
  {
    (200 * (hits * Pow10(places)) + total) / (2 * total)
  }

  predicate BelowHundred(hits: nat, total: nat, places: nat)
    requires total >= 1
  {
    RoundedAt(hits, total, places) < 100 * Pow10(places)
  }

  // The fewest decimals at which it does not read as 100.
  ghost predicate FewestPlaces(hits: nat, total: nat, places: nat)
    requires total >= 1
  {
    BelowHundred(hits, total, places) && forall p: nat :: p < places ==> !BelowHundred(hits, total, p)
  }

  function FixedText(n: nat, places: nat): string {
    if places == 0 then PrintNat(n)
    else PrintNat(Quotient(n, Pow10(places))) + "." + PadStart(PrintNat(Remainder(n, Pow10(places))), places)
  }

  // ---- the integer part ----

  function CeilingOf(n: nat, d: nat): nat
    requires d >= 1
  {
    (n + d - 1) / d
  }

  // Dividing first keeps the products small, and loses nothing.
  lemma ThresholdExact(factor: nat, total: nat, hits: nat)
    ensures hits >= factor * (total / 200) + CeilingOf(factor * (total % 200), 200) <==> 200 * hits >= factor * total
  {
    var q, r := total / 200, total % 200;
    assert total == 200 * q + r;
    assert factor * total == 200 * (factor * q) + factor * r by {
      assert factor * (200 * q) == 200 * (factor * q);
      assert factor * (200 * q + r) == factor * (200 * q) + factor * r;
    }
  }

  lemma RoundsTo(hits: nat, total: nat, c: nat)
    requires total >= 1 && c <= 100 && hits <= total
    requires c == 0 || 200 * hits >= (2 * c - 1) * total
    requires c == 100 || 200 * hits < (2 * c + 1) * total
    ensures RoundedAt(hits, total, 0) == c
  {
    var n := 200 * hits + total;
    assert RoundedAt(hits, total, 0) == n / (2 * total) by {
      assert hits * Pow10(0) == hits;
    }
    assert (2 * c) * total <= n;
    assert n < (2 * c + 2) * total;
    QuotientIs(n, 2 * total, c);
  }

  lemma QuotientIs(n: nat, d: nat, q: nat)
    requires d >= 1 && q * d <= n < (q + 1) * d
    ensures n / d == q
  {
    assert n == (n / d) * d + n % d;
    Between(n / d, q, d, n);
  }

  lemma Between(a: nat, b: nat, d: nat, n: nat)
    requires d >= 1 && a * d <= n < (a + 1) * d && b * d <= n < (b + 1) * d
    ensures a == b
  {
    LessTimes(a, b + 1, d);
    LessTimes(b, a + 1, d);
  }

  lemma LessTimes(a: int, b: int, d: int)
    requires d >= 1 && a * d < b * d
    ensures a < b
  {
    if b <= a {
      TimesMonotone(b, a, d);
    }
  }

  lemma TimesMonotone(a: int, b: int, d: int)
    requires a <= b && d >= 0
    ensures a * d <= b * d
  {
  }

  // The hit percentage rounds to `percent` or more.
  predicate Reaches(hits: nat, total: nat, percent: int) {
    200 * hits >= (2 * percent - 1) * total
  }

  lemma ReachesLess(hits: nat, total: nat, a: int, b: int)
    requires a <= b && Reaches(hits, total, b)
    ensures Reaches(hits, total, a)
  {
    TimesMonotone(2 * a - 1, 2 * b - 1, total);
  }

  method TestPercent(hits: nat, total: nat, candidate: nat) returns (reached: bool)
    requires 1 <= candidate <= 100 && total <= MAX_SAFE_INTEGER
    ensures reached == Reaches(hits, total, candidate)
  {
    var factor := candidate * 2 - 1;
    SmallProducts(factor, total);
    assert IsSafe(factor * (total % 200));
    var threshold := factor * (total / 200) + CeilingOf(factor * (total % 200), 200);
    assert IsSafe(threshold);
    ThresholdExact(factor, total, hits);
    return hits >= threshold;
  }

  // A binary search over the hundred and one percentages.
  method RoundedIntegerPercent(hits: nat, total: nat) returns (percent: nat)
    requires 1 <= total <= MAX_SAFE_INTEGER && hits <= total
    ensures percent == RoundedAt(hits, total, 0) && percent <= 100
    ensures percent == 100 <==> Reaches(hits, total, 100)
  {
    var lower, upper := 0, 100;
    while lower < upper
      invariant 0 <= lower <= upper <= 100
      invariant lower == 0 || Reaches(hits, total, lower)
      invariant upper == 100 || !Reaches(hits, total, upper + 1)
    {
      var candidate := (lower + upper + 1) / 2;
      var reached := TestPercent(hits, total, candidate);
      if reached {
        lower := candidate;
      } else {
        upper := candidate - 1;
      }
    }
    RoundsTo(hits, total, lower);
    if lower < 100 && Reaches(hits, total, 100) {
      ReachesLess(hits, total, lower + 1, 100);
    }
    percent := lower;
  }

  lemma SmallProducts(factor: nat, total: nat)
    requires factor <= 199 && total <= MAX_SAFE_INTEGER
    ensures 0 <= factor * (total / 200) && 0 <= factor * (total % 200) <= 199 * 199
    ensures factor * (total / 200) + CeilingOf(factor * (total % 200), 200) <= MAX_SAFE_INTEGER
  {
    TimesMonotone(factor, 199, total / 200);
    TimesMonotone(factor, 199, total % 200);
    TimesMonotone(total % 200, 199, 199);
    assert total == 200 * (total / 200) + total % 200;
    TimesMonotone(factor, 200, total % 200);
    assert CeilingOf(factor * (total % 200), 200) <= total % 200 + 0 by {
      assert factor * (total % 200) <= 199 * (total % 200);
    }
  }

  // ---- the decimals ----

  // Rounding at some place is below 100 exactly when the miss is more than half a unit of that place.
  lemma BelowHundredMeans(hits: nat, total: nat, misses: nat, places: nat)
    requires total >= 1 && misses == total - hits
    ensures BelowHundred(hits, total, places) <==> 200 * (misses * Pow10(places)) > total
  {
    var p := Pow10(places);
    var n := 200 * (hits * p) + total;
    Distributed(hits, misses, p);
    assert n == 200 * (total * p) - 200 * (misses * p) + total;
    FloorBelow(n, 2 * total, 100 * p);
    assert (100 * p) * (2 * total) == 200 * (total * p);
  }

  lemma FloorBelow(n: nat, d: nat, q: nat)
    requires d >= 1
    ensures n / d < q <==> n < q * d
  {
    assert n == (n / d) * d + n % d;
    if n / d < q {
      TimesMonotone(n / d + 1, q, d);
    } else {
      TimesMonotone(q, n / d, d);
    }
  }

  // Where the miss is between half a unit and five units of the place, what is lost is one to five units.
  lemma LossIs(hits: nat, total: nat, misses: nat, places: nat, loss: nat)
    requires total >= 1 && misses == total - hits && 1 <= loss
    requires (2 * loss - 1) * total < 200 * (misses * Pow10(places)) <= (2 * loss + 1) * total
    requires loss <= 100 * Pow10(places)
    ensures RoundedAt(hits, total, places) == 100 * Pow10(places) - loss
  {
    var p := Pow10(places);
    var n, q := 200 * (hits * p) + total, 100 * p - loss;
    Distributed(hits, misses, p);
    LossProducts(p, loss, total);
    QuotientIs(n, 2 * total, q);
  }

  lemma Distributed(a: int, b: int, p: int)
    ensures a * p + b * p == (a + b) * p
  {
  }

  lemma LossProducts(p: int, loss: int, total: int)
    ensures (100 * p - loss) * (2 * total) == 200 * (total * p) - 2 * (loss * total)
    ensures (100 * p - loss + 1) * (2 * total) == 200 * (total * p) - 2 * (loss * total) + 2 * total
    ensures (2 * loss + 1) * total == 2 * (loss * total) + total && (2 * loss - 1) * total == 2 * (loss * total) - total
  {
    Distributed(100 * p - loss, 1, 2 * total);
    Distributed(2 * loss, 1, total);
    Distributed(2 * loss, -1, total);
    assert (2 * loss) * total == 2 * (loss * total);
    Distributed(100 * p, -loss, 2 * total);
    assert (100 * p) * (2 * total) == 200 * (total * p);
    assert (-loss) * (2 * total) == -2 * (loss * total);
  }

  // Comparing tenths keeps the products small: g > floor(D / 10) says 10 g > D, and the threshold says
  // 10 g <= (2 l + 1) D.
  lemma TenthsExact(gap: nat, total: nat, factor: nat)
    ensures gap <= total / 10 <==> 10 * gap <= total
    ensures gap <= factor * (total / 10) + (factor * (total % 10)) / 10 <==> 10 * gap <= factor * total
  {
    var tens, ones := total / 10, total % 10;
    assert total == 10 * tens + ones;
    assert factor * total == 10 * (factor * tens) + factor * ones by {
      assert factor * (10 * tens + ones) == factor * (10 * tens) + factor * ones;
      assert factor * (10 * tens) == 10 * (factor * tens);
    }
  }

  lemma PowNext(x: nat, places: nat)
    ensures x * Pow10(places + 1) == 10 * (x * Pow10(places))
  {
    assert Pow10(places + 1) == 10 * Pow10(places);
    assert x * (10 * Pow10(places)) == 10 * (x * Pow10(places));
  }

  // Multiplies the miss up, place by place, until it shows.
  method FindPlaces(misses: nat, total: nat) returns (places: nat, gap: nat)
    requires misses >= 1 && 200 * misses <= total <= MAX_SAFE_INTEGER
    ensures places >= 1 && 10 * gap == 200 * (misses * Pow10(places)) && total < 10 * gap <= 10 * total
    ensures forall p: nat :: p < places ==> 200 * (misses * Pow10(p)) <= total
  {
    places, gap := 1, misses * 200;
    var tens := total / 10;
    PowNext(misses, 0);
    assert misses * Pow10(0) == misses;
    while gap <= tens
      invariant places >= 1 && 10 * gap == 200 * (misses * Pow10(places)) && 1 <= gap <= total
      invariant forall p: nat :: p < places ==> 200 * (misses * Pow10(p)) <= total
      decreases total - gap
    {
      TenthsExact(gap, total, 1);
      PowNext(misses, places);
      assert IsSafe(gap * 10);
      gap := gap * 10;
      places := places + 1;
    }
    TenthsExact(gap, total, 1);
  }

  // The last digit's distance from ten.
  method FindLoss(gap: nat, total: nat) returns (loss: nat)
    requires total < 10 * gap <= 10 * total && total <= MAX_SAFE_INTEGER
    ensures 1 <= loss <= 5 && (2 * loss - 1) * total < 10 * gap <= (2 * loss + 1) * total
  {
    var tens, ones := total / 10, total % 10;
    loss := 1;
    while loss < 5
      invariant 1 <= loss <= 5 && (2 * loss - 1) * total < 10 * gap
    {
      var factor := loss * 2 + 1;
      TenthsExact(gap, total, factor);
      SmallTenths(factor, total);
      var threshold := factor * tens + (factor * ones) / 10;
      assert IsSafe(factor * tens) && IsSafe(factor * ones) && IsSafe(threshold);
      if gap <= threshold {
        return;
      }
      loss := loss + 1;
    }
  }

  lemma SmallTenths(factor: nat, total: nat)
    requires factor <= 9 && total <= MAX_SAFE_INTEGER
    ensures 0 <= factor * (total / 10) && 0 <= factor * (total % 10) <= 81
    ensures factor * (total / 10) + (factor * (total % 10)) / 10 <= MAX_SAFE_INTEGER
  {
    TimesMonotone(factor, 9, total / 10);
    TimesMonotone(factor, 9, total % 10);
  }

  function Nines(k: nat): string {
    seq(k, _ => '9')
  }

  // The fraction of 100 less a few units of the last place is all nines but its last digit.
  lemma {:induction false} AlmostAll(places: nat, loss: nat)
    requires places >= 1 && 1 <= loss <= 9
    ensures Pow10(places) >= 10 && PrintNat(Pow10(places) - loss) == Nines(places - 1) + [Digit(10 - loss)]
    decreases places
  {
    if places == 1 {
      assert Pow10(1) == 10;
      assert Nines(0) + [Digit(10 - loss)] == [Digit(10 - loss)];
    } else {
      var p := Pow10(places - 1);
      AlmostAll(places - 1, 1);
      assert Pow10(places) == 10 * p;
      assert (10 * p - loss) / 10 == p - 1 && (10 * p - loss) % 10 == 10 - loss;
      assert Nines(places - 2) + ['9'] == Nines(places - 1);
      assert Digit(9) == '9';
    }
  }

  lemma NinetyNine(places: nat, loss: nat)
    requires places >= 1 && 1 <= loss <= 5
    ensures loss <= 100 * Pow10(places)
    ensures FixedText(100 * Pow10(places) - loss, places) == "99." + Nines(places - 1) + [Digit(10 - loss)]
  {
    var p := Pow10(places);
    AlmostAll(places, loss);
    var n := 100 * p - loss;
    assert n == 99 * p + (p - loss);
    QuotientIs(n, p, 99);
    assert Quotient(n, p) == 99 && Remainder(n, p) == p - loss by {
      Divided(n, p);
    }
    assert PrintNat(99) == "99" by {
      assert PrintNat(9) == [Digit(9)];
    }
    assert |PrintNat(p - loss)| == places;
    assert "99" + "." == "99.";
  }

  // The percentage as shown: exact, rounded half up, with as few decimals as do not read 100.
  method CacheHitPercent(usage: Option<TokenUsage>) returns (text: Option<string>, ghost places: nat)
    requires usage.Some? ==> BilledInputTokens(usage.value) <= MAX_SAFE_INTEGER
    ensures text.None? <==> usage.None? || BilledInputTokens(usage.value) == 0
    ensures text.Some? ==>
              var hits, total := SafeCount(usage.value.cacheReadTokens), BilledInputTokens(usage.value);
              if hits == total then text == Some("100")
              else FewestPlaces(hits, total, places) && text == Some(FixedText(RoundedAt(hits, total, places), places))
  {
    places := 0;
    if usage.None? {
      return None, 0;
    }
    var hits, total := SafeCount(usage.value.cacheReadTokens), BilledInputTokens(usage.value);
    if total == 0 {
      return None, 0;
    }
    var misses := SafeCount(Some(usage.value.inputTokens)) + SafeCount(usage.value.cacheWriteTokens);
    if misses == 0 {
      return Some("100"), 0;
    }
    var percent := RoundedIntegerPercent(hits, total);
    if percent < 100 {
      assert Pow10(0) == 1;
      return Some(PrintNat(percent)), 0;
    }
    assert Reaches(hits, total, 100) && 200 * misses <= total;
    var shown, gap := FindPlaces(misses, total);
    var loss := FindLoss(gap, total);
    places := shown;
    NinetyNine(shown, loss);
    LossIs(hits, total, misses, shown, loss);
    FewestAre(hits, total, misses, shown);
    text := Some("99." + Nines(shown - 1) + [Digit(10 - loss)]);
  }

  lemma FewestAre(hits: nat, total: nat, misses: nat, places: nat)
    requires total >= 1 && misses == total - hits && 200 * (misses * Pow10(places)) > total
    requires forall p: nat :: p < places ==> 200 * (misses * Pow10(p)) <= total
    ensures FewestPlaces(hits, total, places)
  {
    BelowHundredMeans(hits, total, misses, places);
    forall p: nat | p < places ensures !BelowHundred(hits, total, p) {
      BelowHundredMeans(hits, total, misses, p);
    }
  }
}
