/**
 Costs shown in another currency: what conversion may change, and by how much.
 */
module BillingCurrency {
  import opened Billing
  import opened BillingPeriods
  import opened BillingSummary
  import opened DecimalText
  import opened Options

  const USD := "USD"
  const CNY := "CNY"
  const UNIT := 1000000000000000

  datatype Total = Total(currency: string, amount: nat)

  datatype Status = Native | Converted | Unavailable

  datatype Display = Display(status: Status, totals: seq<Total>, breakdown: seq<Group>)

  // ---- one amount ----

  // The rounded quotient, halves up.
  function Rounded(numerator: nat, denominator: nat): nat
    requires denominator >= 1
  {
    (numerator + denominator / 2) / denominator
  }

  lemma RoundedWithinHalf(numerator: nat, denominator: nat)
    requires denominator >= 1
    ensures var q := Rounded(numerator, denominator);
            -(denominator as int) <= 2 * (q * denominator) - 2 * numerator <= denominator
  {
    var d, n := denominator, numerator + denominator / 2;
    var q := n / d;
    assert q * d + n % d == n;
    assert 0 <= n % d < d;
    assert 2 * (d / 2) <= d <= 2 * (d / 2) + 1;
  }

  function Multiplier(target: string, rate: nat): nat {
    if target == CNY then rate else UNIT
  }

  function Divisor(target: string, rate: nat): nat {
    if target == CNY then UNIT else rate
  }

  function Convert(amount: nat, from: string, target: string, rate: nat): nat
    requires rate >= 1
  {
    if from == target then amount else Rounded(amount * Multiplier(target, rate), Divisor(target, rate))
  }

  function ConvertText(amount: string, from: string, target: string, rate: nat): string
    requires rate >= 1 && IsDecimal(amount)
  {
    if from == target then amount else Amount(Convert(Units(amount, MONEY_PLACES), from, target, rate), MONEY_PLACES)
  }

  // What is printed after conversion reads back as the converted amount.
  lemma ConvertTextExact(amount: string, from: string, target: string, rate: nat)
    requires rate >= 1 && IsDecimal(amount)
    ensures IsDecimal(ConvertText(amount, from, target, rate))
    ensures Units(ConvertText(amount, from, target, rate), MONEY_PLACES)
            == Convert(Units(amount, MONEY_PLACES), from, target, rate)
  {
    UnitsOfAmount(Convert(Units(amount, MONEY_PLACES), from, target, rate), MONEY_PLACES);
  }

  // ---- the breakdown ----

  predicate RatesReadable(groups: seq<Group>) {
    forall i, j :: 0 <= i < |groups| && 0 <= j < |groups[i].rates| ==> IsDecimal(groups[i].rates[j].rate)
  }

  predicate LinesReadable(rates: seq<RateSum>) {
    forall j :: 0 <= j < |rates| ==> IsDecimal(rates[j].rate)
  }

  // Listing rates leaves the group's own counts alone.
  function MergeRates(g: Group, rates: seq<RateSum>, from: string, rate: nat): (r: Group)
    requires rate >= 1 && LinesReadable(rates)
    ensures r.currency == g.currency && r.category == g.category && r.tokens == g.tokens && r.amount == g.amount
  {
    if rates == [] then g
    else
      var last := rates[|rates| - 1];
      WithRate(MergeRates(g, rates[..|rates| - 1], from, rate), ConvertText(last.rate, from, g.currency, rate),
               last.tokens,
               Convert(last.amount, from, g.currency, rate))
  }

  // The group of the category in the target currency, with one more group of some currency in it.
  function Grown(base: Group, g: Group, rate: nat): Group
    requires rate >= 1
  {
    base.(tokens := base.tokens + g.tokens,
    amount := base.amount + Convert(g.amount, g.currency, base.currency, rate),
    truncated := base.truncated || g.truncated)
  }

  function Merged(base: Group, g: Group, rate: nat): Group
    requires rate >= 1 && LinesReadable(g.rates)
  {
    MergeRates(Grown(base, g, rate), g.rates, g.currency, rate)
  }

  function BaseOf(groups: seq<Group>, target: string, category: Category): (r: Group)
    ensures r.currency == target && r.category == category
  {
    var i := GroupIndex(groups, target, category);
    if i < |groups| then groups[i] else Group(target, category, 0, 0, [], false)
  }

  function Placed(groups: seq<Group>, g: Group): seq<Group> {
    var i := GroupIndex(groups, g.currency, g.category);
    if i < |groups| then groups[i := g] else groups + [g]
  }

  function ConvertGroups(groups: seq<Group>, target: string, rate: nat): seq<Group>
    requires rate >= 1 && RatesReadable(groups)
  {
    if groups == [] then []
    else
      var before := ConvertGroups(groups[..|groups| - 1], target, rate);
      var last := groups[|groups| - 1];
      Placed(before, Merged(BaseOf(before, target, last.category), last, rate))
  }

  function SumConverted(totals: seq<Total>, target: string, rate: nat): nat
    requires rate >= 1
  {
    if totals == [] then 0
    else
      SumConverted(totals[..|totals| - 1], target, rate)
      + Convert(totals[|totals| - 1].amount, totals[|totals| - 1].currency, target, rate)
  }

  predicate AllIn(totals: seq<Total>, target: string) {
    forall i :: 0 <= i < |totals| ==> totals[i].currency == target
  }

  predicate OnlyKnown(totals: seq<Total>) {
    forall i :: 0 <= i < |totals| ==> totals[i].currency == USD || totals[i].currency == CNY
  }

  predicate UsableRate(usdCny: string) {
    IsRate(usdCny) && (RateIsDecimal(usdCny); Units(usdCny, MONEY_PLACES) > 0)
  }

  method MergeLines(start: Group, rates: seq<RateSum>, from: string, rate: nat) returns (merged: Group)
    requires rate >= 1 && LinesReadable(rates)
    ensures merged == MergeRates(start, rates, from, rate)
  {
    merged := start;
    for k := 0 to |rates|
      invariant merged == MergeRates(start, rates[..k], from, rate)
    {
      assert rates[..k + 1][..k] == rates[..k];
      var item := rates[k];
      merged := WithRate(merged, ConvertText(item.rate, from, start.currency, rate), item.tokens,
                         Convert(item.amount, from, start.currency, rate));
    }
    assert rates[..|rates|] == rates;
  }

  method MergeGroup(groups: seq<Group>, g: Group, target: string, rate: nat) returns (after: seq<Group>)
    requires rate >= 1 && LinesReadable(g.rates)
    ensures after == Placed(groups, Merged(BaseOf(groups, target, g.category), g, rate))
  {
    var merged := MergeLines(Grown(BaseOf(groups, target, g.category), g, rate), g.rates, g.currency, rate);
    after := Placed(groups, merged);
  }

  method ConvertBreakdown(breakdown: seq<Group>, target: string, rate: nat) returns (groups: seq<Group>)
    requires rate >= 1 && RatesReadable(breakdown)
    ensures groups == ConvertGroups(breakdown, target, rate)
  {
    groups := [];
    for k := 0 to |breakdown|
      invariant groups == ConvertGroups(breakdown[..k], target, rate)
    {
      assert breakdown[..k + 1][..k] == breakdown[..k];
      groups := MergeGroup(groups, breakdown[k], target, rate);
    }
    assert breakdown[..|breakdown|] == breakdown;
  }

  method ConvertTotals(totals: seq<Total>, target: string, rate: nat) returns (sum: nat)
    requires rate >= 1
    ensures sum == SumConverted(totals, target, rate)
  {
    sum := 0;
    for k := 0 to |totals|
      invariant sum == SumConverted(totals[..k], target, rate)
    {
      assert totals[..k + 1][..k] == totals[..k];
      sum := sum + Convert(totals[k].amount, totals[k].currency, target, rate);
    }
    assert totals[..|totals|] == totals;
  }

  method BillingCurrencyDisplay(totals: seq<Total>, breakdown: seq<Group>, target: string, usdCny: string)
    returns (d: Display)
    requires RatesReadable(breakdown) && (target == USD || target == CNY)
    ensures AllIn(totals, target) ==> d == Display(Native, totals, breakdown)
    ensures !AllIn(totals, target) && !(UsableRate(usdCny) && OnlyKnown(totals)) ==>
              d == Display(Unavailable, totals, breakdown)
    ensures !AllIn(totals, target) && UsableRate(usdCny) && OnlyKnown(totals) ==>
              IsDecimal(usdCny)
              && var rate := Units(usdCny, MONEY_PLACES);
                 rate >= 1
                 && d == Display(Converted, [Total(target, SumConverted(totals, target, rate))],
                                 ConvertGroups(breakdown, target, rate))
  {
    if AllIn(totals, target) {
      return Display(Native, totals, breakdown);
    }
    if !UsableRate(usdCny) || !OnlyKnown(totals) {
      return Display(Unavailable, totals, breakdown);
    }
    RateIsDecimal(usdCny);
    var rate := Units(usdCny, MONEY_PLACES);
    var groups := ConvertBreakdown(breakdown, target, rate);
    var sum := ConvertTotals(totals, target, rate);
    d := Display(Converted, [Total(target, sum)], groups);
  }

  // ---- what conversion leaves alone ----

  lemma MergedSums(base: Group, g: Group, rate: nat)
    requires rate >= 1 && LinesReadable(g.rates)
    ensures var after := Merged(base, g, rate);
            && after.currency == base.currency && after.category == base.category
            && after.tokens == base.tokens + g.tokens
            && after.amount == base.amount + Convert(g.amount, g.currency, base.currency, rate)
  {
  }

  // What a group contributes after conversion.
  function ConvertedPart(g: Group, target: string, rate: nat, only: Option<Category>, m: Measure): int
    requires rate >= 1
  {
    if Selects(only, g.category) then Part(m, g.tokens, Convert(g.amount, g.currency, target, rate)) else 0
  }

  function ConvertedSum(groups: seq<Group>, target: string, rate: nat, only: Option<Category>, m: Measure): int
    requires rate >= 1
  {
    if groups == [] then 0
    else
      ConvertedSum(groups[..|groups| - 1], target, rate, only, m)
      + ConvertedPart(groups[|groups| - 1], target, rate, only, m)
  }

  lemma PlaceSums(groups: seq<Group>, after: Group, only: Option<Category>, m: Measure)
    ensures GroupSum(Placed(groups, after), after.currency, only, m)
            == GroupSum(groups, after.currency, only, m)
               - GroupPart(BaseOf(groups, after.currency, after.category), after.currency, only, m)
               + GroupPart(after, after.currency, only, m)
  {
    var i := GroupIndex(groups, after.currency, after.category);
    if i < |groups| {
      GroupSumReplaced(groups, i, after, after.currency, only, m);
    } else {
      GroupSumAppend(groups, [after], after.currency, only, m);
      GroupSumOne(after, after.currency, only, m);
    }
  }

  lemma MergedPart(base: Group, g: Group, rate: nat, only: Option<Category>, m: Measure)
    requires rate >= 1 && LinesReadable(g.rates) && base.category == g.category
    ensures GroupPart(Merged(base, g, rate), base.currency, only, m)
            == GroupPart(base, base.currency, only, m) + ConvertedPart(g, base.currency, rate, only, m)
  {
    MergedSums(base, g, rate);
  }

  lemma PlacedSums(groups: seq<Group>, g: Group, rate: nat, target: string, only: Option<Category>, m: Measure)
    requires rate >= 1 && LinesReadable(g.rates)
    ensures GroupSum(Placed(groups, Merged(BaseOf(groups, target, g.category), g, rate)), target, only, m)
            == GroupSum(groups, target, only, m) + ConvertedPart(g, target, rate, only, m)
  {
    var base := BaseOf(groups, target, g.category);
    MergedSums(base, g, rate);
    MergedPart(base, g, rate, only, m);
    PlaceSums(groups, Merged(base, g, rate), only, m);
  }

  // By category and altogether, the displayed breakdown has every token of the original one, and of its
  // money each group's amount, converted once.
  lemma {:induction false} ConversionConserves(groups: seq<Group>, target: string, rate: nat, only: Option<Category>,
                                               m: Measure)
    requires rate >= 1 && RatesReadable(groups)
    ensures GroupSum(ConvertGroups(groups, target, rate), target, only, m)
            == ConvertedSum(groups, target, rate, only, m)
    decreases |groups|
  {
    if groups != [] {
      var init := groups[..|groups| - 1];
      ConversionConserves(init, target, rate, only, m);
      PlacedSums(ConvertGroups(init, target, rate), groups[|groups| - 1], rate, target, only, m);
    }
  }

  // The original tokens do not depend on rate or target.
  lemma {:induction false} TokensUnchanged(groups: seq<Group>, a: string, b: string, rate: nat, other: nat,
                                           only: Option<Category>)
    requires rate >= 1 && other >= 1
    ensures ConvertedSum(groups, a, rate, only, Tokens) == ConvertedSum(groups, b, other, only, Tokens)
    decreases |groups|
  {
    if groups != [] {
      TokensUnchanged(groups[..|groups| - 1], a, b, rate, other, only);
    }
  }

  // ---- how far the displayed total and breakdown may be apart ----

  function Sum(xs: seq<nat>): nat {
    if xs == [] then 0 else Sum(xs[..|xs| - 1]) + xs[|xs| - 1]
  }

  function SumRounded(xs: seq<nat>, factor: nat, divisor: nat): nat
    requires divisor >= 1
  {
    if xs == [] then 0 else SumRounded(xs[..|xs| - 1], factor, divisor) + Rounded(xs[|xs| - 1] * factor, divisor)
  }

  lemma OneMoreRounded(before: int, q: int, exact: int, x: int, n: int, factor: int, divisor: int)
    requires -(n * divisor) <= 2 * (before * divisor) - 2 * (exact * factor) <= n * divisor
    requires -divisor <= 2 * (q * divisor) - 2 * (x * factor) <= divisor
    ensures -((n + 1) * divisor) <= 2 * ((before + q) * divisor) - 2 * ((exact + x) * factor) <= (n + 1) * divisor
  {
    assert (before + q) * divisor == before * divisor + q * divisor;
    assert (exact + x) * factor == exact * factor + x * factor;
    assert (n + 1) * divisor == n * divisor + divisor;
  }

  // Rounding each part is off by at most half a unit a part.
  lemma {:induction false} RoundedParts(xs: seq<nat>, factor: nat, divisor: nat)
    requires divisor >= 1
    ensures -(|xs| * divisor)
            <= 2 * (SumRounded(xs, factor, divisor) * divisor) - 2 * (Sum(xs) * factor)
            <= |xs| * divisor
    decreases |xs|
  {
    if xs != [] {
      var init, x := xs[..|xs| - 1], xs[|xs| - 1];
      RoundedParts(init, factor, divisor);
      RoundedWithinHalf(x * factor, divisor);
      OneMoreRounded(SumRounded(init, factor, divisor), Rounded(x * factor, divisor), Sum(init), x, |init|, factor,
                     divisor);
    }
  }

  lemma StrictTimes(a: int, b: int, d: int)
    requires a < b && d >= 1
    ensures a * d < b * d
  {
  }

  lemma CancelledLe(a: int, b: int, d: int)
    requires d >= 1 && a * d <= b * d
    ensures a <= b
  {
    if b < a {
      StrictTimes(b, a, d);
    }
  }

  lemma Cancelled(a: int, b: int, n: int, d: int)
    requires d >= 1 && -(n * d) <= 2 * (a * d) - 2 * (b * d) <= n * d
    ensures -n <= 2 * a - 2 * b <= n
  {
    assert 2 * (a * d) - 2 * (b * d) == (2 * a - 2 * b) * d;
    assert -(n * d) == (-n) * d;
    CancelledLe(2 * a - 2 * b, n, d);
    CancelledLe(-n, 2 * a - 2 * b, d);
  }

  // Two whole numbers of units near one amount are near each other.
  lemma NearEachOther(p: int, q: int, exact: int, m: int, n: int, d: int)
    requires d >= 1
    requires -(m * d) <= 2 * (p * d) - 2 * exact <= m * d
    requires -(n * d) <= 2 * (q * d) - 2 * exact <= n * d
    ensures -(m + n) <= 2 * p - 2 * q <= m + n
  {
    assert (m + n) * d == m * d + n * d;
    Cancelled(p, q, m + n, d);
  }

  // Two ways to split one amount, each part converted: half a unit apart at most for every part.
  lemma SplitsAgree(xs: seq<nat>, ys: seq<nat>, factor: nat, divisor: nat)
    requires divisor >= 1 && Sum(xs) == Sum(ys)
    ensures -(|xs| + |ys|) <= 2 * SumRounded(xs, factor, divisor) - 2 * SumRounded(ys, factor, divisor) <= |xs| + |ys|
  {
    RoundedParts(xs, factor, divisor);
    RoundedParts(ys, factor, divisor);
    NearEachOther(SumRounded(xs, factor, divisor), SumRounded(ys, factor, divisor), Sum(xs) * factor, |xs|, |ys|,
                  divisor);
  }

  // The parts that are converted, and those already in the target currency.
  function Foreign(groups: seq<Group>, target: string): seq<nat> {
    if groups == [] then []
    else
      var last := groups[|groups| - 1];
      Foreign(groups[..|groups| - 1], target) + if last.currency == target then [] else [last.amount]
  }

  function AtHome(groups: seq<Group>, target: string): nat {
    if groups == [] then 0
    else
      var last := groups[|groups| - 1];
      AtHome(groups[..|groups| - 1], target) + if last.currency == target then last.amount else 0
  }

  function ForeignTotals(totals: seq<Total>, target: string): seq<nat> {
    if totals == [] then []
    else
      var last := totals[|totals| - 1];
      ForeignTotals(totals[..|totals| - 1], target) + if last.currency == target then [] else [last.amount]
  }

  function HomeTotals(totals: seq<Total>, target: string): nat {
    if totals == [] then 0
    else
      var last := totals[|totals| - 1];
      HomeTotals(totals[..|totals| - 1], target) + if last.currency == target then last.amount else 0
  }

  lemma SumRoundedPush(xs: seq<nat>, x: nat, factor: nat, divisor: nat)
    requires divisor >= 1
    ensures SumRounded(xs + [x], factor, divisor) == SumRounded(xs, factor, divisor) + Rounded(x * factor, divisor)
  {
    assert (xs + [x])[..|xs|] == xs;
  }

  lemma {:induction false} ConvertedParts(groups: seq<Group>, target: string, rate: nat)
    requires rate >= 1
    ensures ConvertedSum(groups, target, rate, None, Money)
            == AtHome(groups, target)
               + SumRounded(Foreign(groups, target), Multiplier(target, rate), Divisor(target, rate))
    decreases |groups|
  {
    if groups != [] {
      var init, last := groups[..|groups| - 1], groups[|groups| - 1];
      ConvertedParts(init, target, rate);
      if last.currency == target {
        assert Foreign(init, target) + [] == Foreign(init, target);
      } else {
        SumRoundedPush(Foreign(init, target), last.amount, Multiplier(target, rate), Divisor(target, rate));
      }
    }
  }

  lemma {:induction false} ConvertedTotals(totals: seq<Total>, target: string, rate: nat)
    requires rate >= 1
    ensures SumConverted(totals, target, rate)
            == HomeTotals(totals, target)
               + SumRounded(ForeignTotals(totals, target), Multiplier(target, rate), Divisor(target, rate))
    decreases |totals|
  {
    if totals != [] {
      var init, last := totals[..|totals| - 1], totals[|totals| - 1];
      ConvertedTotals(init, target, rate);
      if last.currency == target {
        assert ForeignTotals(init, target) + [] == ForeignTotals(init, target);
      } else {
        SumRoundedPush(ForeignTotals(init, target), last.amount, Multiplier(target, rate), Divisor(target, rate));
      }
    }
  }

  // Where the breakdown adds up to the totals in each currency, the displayed total and the displayed
  // breakdown differ by at most half a unit for every part that was converted.
  lemma DisplayAgrees(totals: seq<Total>, groups: seq<Group>, target: string, rate: nat)
    requires rate >= 1 && RatesReadable(groups)
    requires AtHome(groups, target) == HomeTotals(totals, target)
    requires Sum(Foreign(groups, target)) == Sum(ForeignTotals(totals, target))
    ensures var parts := |Foreign(groups, target)| + |ForeignTotals(totals, target)|;
            var shown := GroupSum(ConvertGroups(groups, target, rate), target, None, Money);
            -parts <= 2 * shown - 2 * SumConverted(totals, target, rate) <= parts
  {
    ConversionConserves(groups, target, rate, None, Money);
    ConvertedParts(groups, target, rate);
    ConvertedTotals(totals, target, rate);
    SplitsAgree(Foreign(groups, target), ForeignTotals(totals, target), Multiplier(target, rate),
                Divisor(target, rate));
  }
}
