/**
 What one request costs, and what a history of requests costs.
 */
module Billing {
  import opened BillingPeriods
  import opened DecimalText
  import opened Options
  import TurnLedger

  type TokenUsage = TurnLedger.TokenUsage

  datatype Issue =
    | MissingRoute | MissingPrice | MissingUsage | InvalidUsage | UnknownCache | UnknownReasoning | UnknownPricePeriod

  datatype Route = Route(providerId: string, modelId: string)

  datatype Fact = Fact(
    sequence: int, isAttempt: bool, usage: Option<TokenUsage>, invalidUsage: bool,
    startedAt: Option<int>, time: Option<int>, serviceTier: Option<string>)

  datatype Charge = Charge(category: Category, tokens: nat, rate: string, amount: string)

  datatype Entry = Entry(
    sequence: int, isAttempt: bool, route: Option<Route>, currency: Option<string>, amount: Option<string>,
    charges: seq<Charge>, issues: set<Issue>)

  // ---- usage ----

  predicate IsCount(value: int) {
    TurnLedger.IsTokenCount(value)
  }

  predicate IsOptionalCount(value: Option<int>) {
    value.Some? ==> IsCount(value.value)
  }

  // Counts that fit together; a missing cache count is filled in where the total leaves no choice.
  function NormalizedUsage(u: TokenUsage): Option<TokenUsage> {
    var read, write := u.cacheReadTokens, u.cacheWriteTokens;
    if !IsCount(u.inputTokens) || !IsCount(u.outputTokens) then None
    else if !IsOptionalCount(read) || !IsOptionalCount(write) || !IsOptionalCount(u.totalTokens)
      || !IsOptionalCount(u.reasoningTokens) then None
    else if u.reasoningTokens.Some? && u.reasoningTokens.value > u.outputTokens then None
    else
      var sum := u.inputTokens + u.outputTokens + read.GetOr(0) + write.GetOr(0);
      if !IsCount(sum) then None
      else if u.totalTokens.None? then Some(u)
      else
        var remainder := u.totalTokens.value - sum;
        if remainder < 0 || (read.Some? && write.Some? && remainder != 0) then None
        else if remainder == 0 then
          Some(u.(cacheReadTokens := Some(read.GetOr(0)), cacheWriteTokens := Some(write.GetOr(0))))
        else if read.None? && write.Some? then Some(u.(cacheReadTokens := Some(remainder)))
        else if write.None? && read.Some? then Some(u.(cacheWriteTokens := Some(remainder)))
        else Some(u)
  }

  function Prompt(u: TokenUsage): Option<int> {
    if u.cacheReadTokens.Some? && u.cacheWriteTokens.Some? then
      Some(u.inputTokens + u.cacheReadTokens.value + u.cacheWriteTokens.value)
    else None
  }

  // Normalising never changes a reported count; what it fills in makes the parts add up to the total.
  lemma NormalizedAddsUp(u: TokenUsage)
    requires NormalizedUsage(u).Some?
    ensures var n := NormalizedUsage(u).value;
            && n.inputTokens == u.inputTokens && n.outputTokens == u.outputTokens
            && n.reasoningTokens == u.reasoningTokens
            && n.totalTokens == u.totalTokens
            && (u.cacheReadTokens.Some? ==> n.cacheReadTokens == u.cacheReadTokens)
            && (u.cacheWriteTokens.Some? ==> n.cacheWriteTokens == u.cacheWriteTokens)
            && IsCount(n.inputTokens) && IsCount(n.outputTokens)
            && IsOptionalCount(n.cacheReadTokens) && IsOptionalCount(n.cacheWriteTokens)
            && IsOptionalCount(n.reasoningTokens)
            && (n.reasoningTokens.Some? ==> n.reasoningTokens.value <= n.outputTokens)
            && (n.totalTokens.Some? && Prompt(n).Some? ==> Prompt(n).value + n.outputTokens == n.totalTokens.value)
            && (n.totalTokens.Some? && (u.cacheReadTokens.Some? || u.cacheWriteTokens.Some?) ==> Prompt(n).Some?)
  {
  }

  // ---- charges ----

  // What so many tokens cost at a rate per million.
  function Cost(tokens: nat, rate: string): nat
    requires IsRate(rate)
  {
    tokens * RateUnits(rate)
  }

  function ChargeFor(category: Category, tokens: nat, rate: string): Charge
    requires IsRate(rate)
  {
    Charge(category, tokens, rate, Amount(Cost(tokens, rate), MONEY_PLACES))
  }

  datatype Charged = Charged(charges: seq<Charge>, issues: set<Issue>)

  function RateOf(rates: Rates, category: Category): Option<string> {
    if category in rates then Some(rates[category]) else None
  }

  function Add(c: Charged, category: Category, tokens: Option<int>, rate: Option<string>): Charged
    requires IsOptionalCount(tokens) && (rate.Some? ==> IsRate(rate.value))
  {
    if tokens.None? then c.(issues := c.issues + {UnknownCache})
    else if tokens.value == 0 then c
    else if rate.None? then c.(issues := c.issues + {MissingPrice})
    else c.(charges := c.charges + [ChargeFor(category, tokens.value, rate.value)])
  }

  // Reasoning is priced on its own only where its price differs and there is output at all.
  predicate SplitsReasoning(u: TokenUsage, rates: Rates)
    requires RatesOk(rates)
  {
    && Reasoning in rates && u.outputTokens > 0
    && (Output in rates ==> RateUnits(rates[Reasoning]) != RateUnits(rates[Output]))
  }

  predicate Countable(u: TokenUsage) {
    && IsCount(u.inputTokens) && IsCount(u.outputTokens)
    && IsOptionalCount(u.cacheReadTokens) && IsOptionalCount(u.cacheWriteTokens) && IsOptionalCount(u.reasoningTokens)
    && (u.reasoningTokens.Some? ==> u.reasoningTokens.value <= u.outputTokens)
  }

  function InputCharges(u: TokenUsage, rates: Rates): Charged
    requires Countable(u) && RatesOk(rates)
  {
    Add(Charged([], {}), Input, Some(u.inputTokens), RateOf(rates, Input))
  }

  function ReadCharges(u: TokenUsage, rates: Rates): Charged
    requires Countable(u) && RatesOk(rates)
  {
    Add(InputCharges(u, rates), CacheRead, u.cacheReadTokens, RateOf(rates, CacheRead))
  }

  function PromptCharges(u: TokenUsage, rates: Rates): Charged
    requires Countable(u) && RatesOk(rates)
  {
    Add(ReadCharges(u, rates), CacheWrite, u.cacheWriteTokens, RateOf(rates, CacheWrite))
  }

  function SplitCharges(c: Charged, output: nat, reasoning: nat, rates: Rates): Charged
    requires IsCount(output) && IsCount(reasoning) && reasoning <= output && RatesOk(rates)
  {
    Add(Add(c, Output, Some(output - reasoning), RateOf(rates, Output)), Reasoning, Some(reasoning),
        RateOf(rates, Reasoning))
  }

  function ChargeUsage(u: TokenUsage, rates: Rates): Charged
    requires Countable(u) && RatesOk(rates)
  {
    var prompt := PromptCharges(u, rates);
    if !SplitsReasoning(u, rates) then Add(prompt, Output, Some(u.outputTokens), RateOf(rates, Output))
    else if u.reasoningTokens.None? then prompt.(issues := prompt.issues + {UnknownReasoning})
    else SplitCharges(prompt, u.outputTokens, u.reasoningTokens.value, rates)
  }

  predicate AmountsAreDecimal(charges: seq<Charge>) {
    forall i :: 0 <= i < |charges| ==> IsDecimal(charges[i].amount)
  }

  // The exact sum of the amounts.
  function TotalUnits(charges: seq<Charge>): nat
    requires AmountsAreDecimal(charges)
  {
    if charges == [] then 0
    else TotalUnits(charges[..|charges| - 1]) + Units(charges[|charges| - 1].amount, MONEY_PLACES)
  }

  function TokensOf(charges: seq<Charge>, category: Category): nat {
    if charges == [] then 0
    else
      var last := charges[|charges| - 1];
      TokensOf(charges[..|charges| - 1], category) + if last.category == category then last.tokens else 0
  }

  // The tokens of a category that are to be charged.
  function Due(u: TokenUsage, rates: Rates, category: Category): int
    requires RatesOk(rates)
  {
    match category
    case Input => u.inputTokens
    case CacheRead => u.cacheReadTokens.GetOr(0)
    case CacheWrite => u.cacheWriteTokens.GetOr(0)
    case Output => u.outputTokens - if SplitsReasoning(u, rates) then u.reasoningTokens.GetOr(0) else 0
    case Reasoning => if SplitsReasoning(u, rates) then u.reasoningTokens.GetOr(0) else 0
  }

  lemma AddCharged(c: Charged, category: Category, tokens: Option<int>, rate: Option<string>, counted: Category)
    requires IsOptionalCount(tokens) && (rate.Some? ==> IsRate(rate.value))
    ensures var after := Add(c, category, tokens, rate);
            after.issues == {} ==>
              c.issues == {} && tokens.Some?
              && TokensOf(after.charges, counted)
                 == TokensOf(c.charges, counted) + if counted == category then tokens.value else 0
  {
    if tokens.None? {
      assert UnknownCache in Add(c, category, tokens, rate).issues;
    } else if tokens.value != 0 && rate.None? {
      assert MissingPrice in Add(c, category, tokens, rate).issues;
    } else if tokens.value != 0 {
      var charge := ChargeFor(category, tokens.value, rate.value);
      assert (c.charges + [charge])[..|c.charges|] == c.charges;
    }
  }

  lemma InputCharged(u: TokenUsage, rates: Rates, category: Category)
    requires Countable(u) && RatesOk(rates)
    ensures var c := InputCharges(u, rates);
            c.issues == {} ==> TokensOf(c.charges, category) == if category == Input then u.inputTokens else 0
  {
    AddCharged(Charged([], {}), Input, Some(u.inputTokens), RateOf(rates, Input), category);
  }

  lemma ReadCharged(u: TokenUsage, rates: Rates, category: Category)
    requires Countable(u) && RatesOk(rates)
    ensures var c := ReadCharges(u, rates);
            c.issues == {} ==>
              u.cacheReadTokens.Some?
              && TokensOf(c.charges, category)
                 == if category == Input then u.inputTokens else if category
                    == CacheRead then u.cacheReadTokens.value else 0
  {
    InputCharged(u, rates, category);
    AddCharged(InputCharges(u, rates), CacheRead, u.cacheReadTokens, RateOf(rates, CacheRead), category);
  }

  lemma PromptCharged(u: TokenUsage, rates: Rates, category: Category)
    requires Countable(u) && RatesOk(rates)
    ensures var c := PromptCharges(u, rates);
            c.issues == {} ==>
              Prompt(u).Some?
              && TokensOf(c.charges, category)
                 == if category == Input then u.inputTokens
                    else if category == CacheRead then u.cacheReadTokens.value
                    else if category == CacheWrite then u.cacheWriteTokens.value
                    else 0
  {
    ReadCharged(u, rates, category);
    AddCharged(ReadCharges(u, rates), CacheWrite, u.cacheWriteTokens, RateOf(rates, CacheWrite), category);
  }

  lemma SplitCharged(c: Charged, output: nat, reasoning: nat, rates: Rates, category: Category)
    requires IsCount(output) && IsCount(reasoning) && reasoning <= output && RatesOk(rates)
    ensures var after := SplitCharges(c, output, reasoning, rates);
            after.issues == {} ==>
              c.issues == {}
              && TokensOf(after.charges, category)
                 == TokensOf(c.charges, category)
                    + (if category == Output then output - reasoning else if category
                       == Reasoning then reasoning else 0)
  {
    AddCharged(c, Output, Some(output - reasoning), RateOf(rates, Output), category);
    AddCharged(Add(c, Output, Some(output - reasoning), RateOf(rates, Output)), Reasoning, Some(reasoning),
               RateOf(rates, Reasoning), category);
  }

  lemma ReasoningKnown(u: TokenUsage, rates: Rates)
    requires Countable(u) && RatesOk(rates) && SplitsReasoning(u, rates)
    ensures u.reasoningTokens.None? ==> UnknownReasoning in ChargeUsage(u, rates).issues
  {
  }

  // Without an issue, every category is charged exactly the tokens due to it.
  lemma ChargesEveryToken(u: TokenUsage, rates: Rates, category: Category)
    requires Countable(u) && RatesOk(rates) && ChargeUsage(u, rates).issues == {}
    ensures TokensOf(ChargeUsage(u, rates).charges, category) == Due(u, rates, category)
    ensures Prompt(u).Some? && (SplitsReasoning(u, rates) ==> u.reasoningTokens.Some?)
  {
    var prompt := PromptCharges(u, rates);
    PromptCharged(u, rates, category);
    if !SplitsReasoning(u, rates) {
      AddCharged(prompt, Output, Some(u.outputTokens), RateOf(rates, Output), category);
    } else {
      ReasoningKnown(u, rates);
      SplitCharged(prompt, u.outputTokens, u.reasoningTokens.value, rates, category);
    }
  }

  // What is due adds up to everything that was reported: nothing is charged twice.
  lemma DueAddsUp(u: TokenUsage, rates: Rates)
    requires RatesOk(rates) && Prompt(u).Some?
    ensures Due(u, rates, Input) + Due(u, rates, CacheRead) + Due(u, rates, CacheWrite) + Due(u, rates, Output)
            + Due(u, rates, Reasoning)
            == Prompt(u).value + u.outputTokens
  {
  }

  // A charge says its price: tokens times the rate per million, to the last place.
  predicate ChargeExact(c: Charge, rates: Rates) {
    && c.category in rates && c.rate == rates[c.category] && IsRate(c.rate) && c.tokens > 0
    && IsDecimal(c.amount) && Units(c.amount, MONEY_PLACES) == Cost(c.tokens, c.rate)
  }

  predicate ChargesExact(charges: seq<Charge>, rates: Rates) {
    forall i :: 0 <= i < |charges| ==> ChargeExact(charges[i], rates)
  }

  // What a summary needs of a charge.
  predicate ChargeOk(c: Charge) {
    IsRate(c.rate) && IsDecimal(c.amount)
  }

  predicate ChargesOk(charges: seq<Charge>) {
    forall i :: 0 <= i < |charges| ==> ChargeOk(charges[i])
  }

  lemma AmountOfCost(cost: nat)
    ensures IsDecimal(Amount(cost, MONEY_PLACES)) && Units(Amount(cost, MONEY_PLACES), MONEY_PLACES) == cost
  {
    UnitsOfAmount(cost, MONEY_PLACES);
  }

  lemma MadeExact(category: Category, tokens: nat, rates: Rates)
    requires RatesOk(rates) && category in rates && tokens > 0
    ensures ChargeExact(ChargeFor(category, tokens, rates[category]), rates)
  {
    var rate := rates[category];
    AmountOfCost(Cost(tokens, rate));
  }

  lemma AddExact(c: Charged, category: Category, tokens: Option<int>, rates: Rates)
    requires IsOptionalCount(tokens) && RatesOk(rates) && ChargesExact(c.charges, rates)
    ensures ChargesExact(Add(c, category, tokens, RateOf(rates, category)).charges, rates)
  {
    if tokens.Some? && tokens.value != 0 && category in rates {
      MadeExact(category, tokens.value, rates);
    }
  }

  lemma PromptExact(u: TokenUsage, rates: Rates)
    requires Countable(u) && RatesOk(rates)
    ensures ChargesExact(PromptCharges(u, rates).charges, rates)
  {
    AddExact(Charged([], {}), Input, Some(u.inputTokens), rates);
    AddExact(InputCharges(u, rates), CacheRead, u.cacheReadTokens, rates);
    AddExact(ReadCharges(u, rates), CacheWrite, u.cacheWriteTokens, rates);
  }

  lemma SplitExact(c: Charged, output: nat, reasoning: nat, rates: Rates)
    requires IsCount(output) && IsCount(reasoning) && reasoning <= output && RatesOk(rates)
             && ChargesExact(c.charges, rates)
    ensures ChargesExact(SplitCharges(c, output, reasoning, rates).charges, rates)
  {
    AddExact(c, Output, Some(output - reasoning), rates);
    AddExact(Add(c, Output, Some(output - reasoning), RateOf(rates, Output)), Reasoning, Some(reasoning), rates);
  }

  lemma ChargesAreExact(u: TokenUsage, rates: Rates)
    requires Countable(u) && RatesOk(rates)
    ensures ChargesExact(ChargeUsage(u, rates).charges, rates)
  {
    PromptExact(u, rates);
    if !SplitsReasoning(u, rates) {
      AddExact(PromptCharges(u, rates), Output, Some(u.outputTokens), rates);
    } else if u.reasoningTokens.Some? {
      SplitExact(PromptCharges(u, rates), u.outputTokens, u.reasoningTokens.value, rates);
    }
  }

  method AddAmounts(charges: seq<Charge>) returns (amount: string)
    requires AmountsAreDecimal(charges)
    ensures amount == Amount(TotalUnits(charges), MONEY_PLACES)
  {
    var total: nat := 0;
    for i := 0 to |charges|
      invariant total == TotalUnits(charges[..i])
    {
      assert charges[..i + 1][..i] == charges[..i];
      total := total + Units(charges[i].amount, MONEY_PLACES);
    }
    assert charges[..|charges|] == charges;
    return Amount(total, MONEY_PLACES);
  }

  // ---- the entry of a request ----

  function OnlyIssue(fact: Fact, route: Option<Route>, issue: Issue): Entry {
    Entry(fact.sequence, fact.isAttempt, route, None, None, [], {issue})
  }

  predicate Prices(price: Option<Price>, route: Route) {
    price.Some? && price.value.providerId == route.providerId && price.value.modelId == route.modelId
      && PriceOk(price.value)
  }

  // The amount of an entry is the exact sum of its charges.
  predicate EntryAddsUp(e: Entry) {
    && ChargesOk(e.charges) && AmountsAreDecimal(e.charges)
    && (e.currency.Some? ==> e.amount == Some(Amount(TotalUnits(e.charges), MONEY_PLACES)))
    && (e.amount.Some? ==> IsDecimal(e.amount.value))
  }

  // The issue that keeps a request from being priced at all.
  function Obstacle(fact: Fact, route: Option<Route>, price: Option<Price>): Option<Issue> {
    if fact.invalidUsage then Some(InvalidUsage)
    else if fact.usage.None? then Some(MissingUsage)
    else if NormalizedUsage(fact.usage.value).None? then Some(InvalidUsage)
    else if route.None? then Some(MissingRoute)
    else if !Prices(price, route.value) then Some(MissingPrice)
    else None
  }

  lemma {:induction false} EffectiveOk(price: Price, at: Moment)
    requires PriceOk(price) && Effective(price, at).Some?
    ensures RatesOk(Effective(price, at).value)
  {
    SelectedOk(price.rates, price.overrides, at);
  }

  method EstimateBillingEntry(fact: Fact, route: Option<Route>, price: Option<Price>)
    returns (entry: Entry, ghost rates: Option<Rates>)
    ensures Obstacle(fact, route, price).Some? ==> entry == OnlyIssue(fact, route, Obstacle(fact, route, price).value)
    ensures Obstacle(fact, route, price).None? ==>
              PriceOk(price.value) && Countable(NormalizedUsage(fact.usage.value).value)
    ensures Obstacle(fact, route, price).None? && rates.None? ==> entry == OnlyIssue(fact, route, UnknownPricePeriod)
    ensures Obstacle(fact, route, price).None? && rates.Some? ==>
              var usage := NormalizedUsage(fact.usage.value).value;
              && RatesOk(rates.value) && ChargesExact(ChargeUsage(usage, rates.value).charges, rates.value)
              && entry.charges == ChargeUsage(usage, rates.value).charges
              && entry.issues == ChargeUsage(usage, rates.value).issues
              && entry.currency == Some(price.value.currency) && AmountsAreDecimal(entry.charges)
              && entry.amount == Some(Amount(TotalUnits(entry.charges), MONEY_PLACES))
    ensures Obstacle(fact, route, price).None? ==> PricedAs(fact, price.value, rates)
    ensures EntryAddsUp(entry)
  {
    rates := None;
    if Obstacle(fact, route, price).Some? {
      return OnlyIssue(fact, route, Obstacle(fact, route, price).value), None;
    }
    var usage := NormalizedUsage(fact.usage.value).value;
    NormalizedAddsUp(fact.usage.value);
    var resolved := BillingPriceForFact(price.value, fact.startedAt, fact.time, Prompt(usage), fact.serviceTier);
    rates := resolved;
    if resolved.None? {
      entry := OnlyIssue(fact, route, UnknownPricePeriod);
      return;
    }
    ResolvedOk(fact, price.value, resolved, Prompt(usage));
    ChargesAreExact(usage, resolved.value);
    var charged := ChargeUsage(usage, resolved.value);
    var amount := AddAmounts(charged.charges);
    AmountOfCost(TotalUnits(charged.charges));
    entry :=
      Entry(fact.sequence, fact.isAttempt, route, Some(price.value.currency), Some(amount), charged.charges,
            charged.issues);
  }

  // The rates used are the price's at every instant of the request, or with its unknown times left open;
  // over a known span they are refused only where the price is unresolved or changes.
  ghost predicate PricedAs(fact: Fact, price: Price, rates: Option<Rates>)
    requires PriceOk(price) && fact.usage.Some? && NormalizedUsage(fact.usage.value).Some?
  {
    var context := Prompt(NormalizedUsage(fact.usage.value).value);
    if HasNoRules(price) then rates == Some(price.rates)
    else if fact.startedAt.None? || fact.time.None? then
      rates == Effective(price, Moment(None, context, fact.serviceTier))
    else if !SpanOk(fact.startedAt.value, fact.time.value) then rates.None?
    else
      && (rates.Some? ==> Throughout(price, fact.startedAt.value, fact.time.value, context, fact.serviceTier, rates))
      && (rates.None? ==>
            forall r :: Throughout(price, fact.startedAt.value, fact.time.value, context, fact.serviceTier, r) ==>
              r.None?)
  }

  lemma ResolvedOk(fact: Fact, price: Price, rates: Option<Rates>, context: Option<int>)
    requires PriceOk(price) && rates.Some?
    requires HasNoRules(price) ==> rates == Some(price.rates)
    requires !HasNoRules(price) && (fact.startedAt.None? || fact.time.None?) ==>
               rates == Effective(price, Moment(None, context, fact.serviceTier))
    requires !HasNoRules(price) && fact.startedAt.Some? && fact.time.Some? ==>
               fact.startedAt.value <= fact.time.value
                 && Throughout(price, fact.startedAt.value, fact.time.value, context, fact.serviceTier, rates)
    ensures RatesOk(rates.value)
  {
    if !HasNoRules(price) {
      if fact.startedAt.None? || fact.time.None? {
        EffectiveOk(price, Moment(None, context, fact.serviceTier));
      } else {
        assert PriceAt(price, fact.startedAt.value, context, fact.serviceTier) == rates;
        EffectiveOk(price, Moment(fact.startedAt, context, fact.serviceTier));
      }
    }
  }
}
