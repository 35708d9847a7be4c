/**
 Prices that depend on when a request ran, how large its context was and on its service tier.
 */
module BillingPeriods {
  import opened DecimalText
  import opened Options

  datatype Category = Input | CacheRead | CacheWrite | Output | Reasoning

  type Rates = map<Category, string>

  // A time rule (hours, weekdays, dates, holidays) may be any function of the minute, and may not know.
  datatype Condition =
    | AllOf(all: seq<Condition>)
    | AnyOf(any: seq<Condition>)
    | Not(negated: Condition)
    | TierIs(tier: string)
    | ContextWithin(gt: Option<int>, gte: Option<int>, lt: Option<int>, lte: Option<int>)
    | AtMinute(rule: int -> Option<bool>)

  datatype Multiplier = Multiplier(when: Condition, factor: string)

  datatype Override = Override(when: Condition, rates: Rates, unavailable: set<Category>)

  datatype Price = Price(
    providerId: string, modelId: string, currency: string, rates: Rates,
    multipliers: seq<Multiplier>, validFrom: Option<int>, validUntil: Option<int>, overrides: seq<Override>)

  // What is known about a moment of a request.
  datatype Moment = Moment(time: Option<int>, context: Option<int>, tier: Option<string>)

  const MINUTE := 60000
  const DAY := 86400000

  function MinuteOf(time: int): int {
    time / MINUTE
  }

  // ---- conditions ----

  function Every(values: seq<Option<bool>>): Option<bool> {
    if Some(false) in values then Some(false) else if None in values then None else Some(true)
  }

  function Any(values: seq<Option<bool>>): Option<bool> {
    if Some(true) in values then Some(true) else if None in values then None else Some(false)
  }

  function ConditionAt(c: Condition, at: Moment): Option<bool> {
    match c
    case AllOf(all) => Every(seq(|all|, i requires 0 <= i < |all| => ConditionAt(all[i], at)))
    case AnyOf(any) => Any(seq(|any|, i requires 0 <= i < |any| => ConditionAt(any[i], at)))
    case Not(negated) =>
      (match ConditionAt(negated, at)
       case Some(b) => Some(!b)
       case None => None)
    case TierIs(tier) => if at.tier.None? then None else Some(at.tier.value == tier)
    case ContextWithin(gt, gte, lt, lte) =>
      if at.context.None? then None
      else
        var x := at.context.value;
        Some((gt.None? || x > gt.value) && (gte.None? || x >= gte.value) && (lt.None? || x < lt.value)
             && (lte.None? || x <= lte.value))
    case AtMinute(rule) => if at.time.None? then None else rule(MinuteOf(at.time.value))
  }

  // ---- the price at a moment ----

  predicate RatesOk(rates: Rates) {
    forall c :: c in rates ==> IsRate(rates[c])
  }

  // What is checked before a price is used.
  predicate PriceOk(price: Price) {
    && RatesOk(price.rates) && Input in price.rates && Output in price.rates
    && (forall i :: 0 <= i < |price.multipliers| ==> IsRate(price.multipliers[i].factor))
    && (forall i :: 0 <= i < |price.overrides| ==> RatesOk(price.overrides[i].rates))
  }

  const SCALE := 1000000000

  function RateUnits(rate: string): nat
    requires IsRate(rate)
  {
    RateIsDecimal(rate);
    Units(rate, RATE_PLACES)
  }

  predicate InForce(price: Price, at: Moment) {
    && (price.validFrom.Some? ==> at.time.Some? && at.time.value >= price.validFrom.value)
    && (price.validUntil.Some? ==> at.time.Some? && at.time.value < price.validUntil.value)
  }

  function Overridden(rates: Rates, rule: Override): Option<Rates> {
    if Input in rule.unavailable || Output in rule.unavailable then None
    else Some((rates + rule.rates) - rule.unavailable)
  }

  // The rates after the overrides, unless one of them cannot be decided.
  function Selected(rates: Rates, overrides: seq<Override>, at: Moment): Option<Rates> {
    if overrides == [] then Some(rates)
    else
      var before := Selected(rates, overrides[..|overrides| - 1], at);
      var rule := overrides[|overrides| - 1];
      match ConditionAt(rule.when, at)
      case None => None
      case Some(b) => if before.None? || !b then before else Overridden(before.value, rule)
  }

  function Times(factor: nat, units: nat): Option<nat> {
    if factor * units % SCALE != 0 then None else Some(factor * units / SCALE)
  }

  predicate FactorsOk(multipliers: seq<Multiplier>) {
    forall i :: 0 <= i < |multipliers| ==> IsRate(multipliers[i].factor)
  }

  // The product of the matching factors, as long as it stays exact; an undecided factor of one is no matter.
  function Factor(multipliers: seq<Multiplier>, at: Moment): Option<nat>
    requires FactorsOk(multipliers)
  {
    if multipliers == [] then Some(SCALE)
    else
      var before := Factor(multipliers[..|multipliers| - 1], at);
      var rule := multipliers[|multipliers| - 1];
      if before.None? then None
      else
        match ConditionAt(rule.when, at)
        case None => if RateUnits(rule.factor) != SCALE then None else before
        case Some(b) => if b then Times(before.value, RateUnits(rule.factor)) else before
  }

  // A rate times the factor, as long as it stays exact and in range.
  function ScaledRate(rate: string, factor: nat): Option<string>
    requires IsRate(rate)
  {
    match Times(RateUnits(rate), factor)
    case None => None
    case Some(units) => if IsRate(Amount(units, RATE_PLACES)) then Some(Amount(units, RATE_PLACES)) else None
  }

  function Scaled(rates: Rates, factor: nat): Option<Rates>
    requires RatesOk(rates)
  {
    if forall c :: c in rates ==> ScaledRate(rates[c], factor).Some? then
      Some(map c | c in rates :: ScaledRate(rates[c], factor).value)
    else None
  }

  lemma {:induction false} SelectedOk(rates: Rates, overrides: seq<Override>, at: Moment)
    requires RatesOk(rates) && forall i :: 0 <= i < |overrides| ==> RatesOk(overrides[i].rates)
    ensures Selected(rates, overrides, at).Some? ==> RatesOk(Selected(rates, overrides, at).value)
    decreases |overrides|
  {
    if overrides != [] {
      SelectedOk(rates, overrides[..|overrides| - 1], at);
    }
  }

  function Effective(price: Price, at: Moment): Option<Rates>
    requires PriceOk(price)
  {
    SelectedOk(price.rates, price.overrides, at);
    if !InForce(price, at) then None
    else
      var selected := Selected(price.rates, price.overrides, at);
      var factor := Factor(price.multipliers, at);
      if selected.None? || factor.None? then None else Scaled(selected.value, factor.value)
  }

  // ---- the same, looping ----

  method SelectRates(price: Price, at: Moment) returns (selected: Option<Rates>)
    requires PriceOk(price)
    ensures selected == Selected(price.rates, price.overrides, at)
  {
    var rates := price.rates;
    for i := 0 to |price.overrides|
      invariant Selected(price.rates, price.overrides[..i], at) == Some(rates)
    {
      var rule := price.overrides[i];
      assert price.overrides[..i + 1][..i] == price.overrides[..i];
      var decided := ConditionAt(rule.when, at);
      if decided.None? || (decided.value && (Input in rule.unavailable || Output in rule.unavailable)) {
        assert Selected(price.rates, price.overrides[..i + 1], at).None?;
        NeverAgain(price.rates, price.overrides, at, i + 1);
        return None;
      }
      if decided.value {
        rates := (rates + rule.rates) - rule.unavailable;
      }
    }
    assert price.overrides[..|price.overrides|] == price.overrides;
    return Some(rates);
  }

  lemma {:induction false} NeverAgain(rates: Rates, overrides: seq<Override>, at: Moment, i: nat)
    requires i <= |overrides| && Selected(rates, overrides[..i], at).None?
    ensures Selected(rates, overrides, at).None?
    decreases |overrides|
  {
    if i == |overrides| {
      assert overrides[..i] == overrides;
    } else {
      var init := overrides[..|overrides| - 1];
      assert init[..i] == overrides[..i];
      NeverAgain(rates, init, at, i);
    }
  }

  method MultiplyFactors(multipliers: seq<Multiplier>, at: Moment) returns (factor: Option<nat>)
    requires FactorsOk(multipliers)
    ensures factor == Factor(multipliers, at)
  {
    var product := SCALE;
    for i := 0 to |multipliers|
      invariant product >= 0 && Factor(multipliers[..i], at) == Some(product)
    {
      var rule := multipliers[i];
      assert multipliers[..i + 1][..i] == multipliers[..i];
      var decided := ConditionAt(rule.when, at);
      if decided.None? && RateUnits(rule.factor) != SCALE {
        FactorNeverAgain(multipliers, at, i + 1);
        return None;
      }
      if decided == Some(true) {
        var next := Times(product, RateUnits(rule.factor));
        if next.None? {
          FactorNeverAgain(multipliers, at, i + 1);
          return None;
        }
        product := next.value;
      }
    }
    assert multipliers[..|multipliers|] == multipliers;
    return Some(product);
  }

  lemma {:induction false} FactorNeverAgain(multipliers: seq<Multiplier>, at: Moment, i: nat)
    requires FactorsOk(multipliers) && i <= |multipliers| && Factor(multipliers[..i], at).None?
    ensures Factor(multipliers, at).None?
    decreases |multipliers|
  {
    if i == |multipliers| {
      assert multipliers[..i] == multipliers;
    } else {
      var init := multipliers[..|multipliers| - 1];
      assert init[..i] == multipliers[..i];
      FactorNeverAgain(init, at, i);
    }
  }

  method ComputeEffective(price: Price, at: Moment) returns (rates: Option<Rates>)
    requires PriceOk(price)
    ensures rates == Effective(price, at)
  {
    if !InForce(price, at) {
      return None;
    }
    var selected := SelectRates(price, at);
    var factor := MultiplyFactors(price.multipliers, at);
    SelectedOk(price.rates, price.overrides, at);
    if selected.None? || factor.None? {
      return None;
    }
    return Scaled(selected.value, factor.value);
  }

  // ---- the price of a request ----

  predicate HasNoRules(price: Price) {
    price.multipliers == [] && price.overrides == [] && price.validFrom.None? && price.validUntil.None?
  }

  predicate SpanOk(start: int, end: int) {
    0 <= start <= end <= 9007199254740991 && end - start <= DAY
  }

  // The price at one instant.
  function PriceAt(price: Price, time: int, context: Option<int>, tier: Option<string>): Option<Rates>
    requires PriceOk(price)
  {
    Effective(price, Moment(Some(time), context, tier))
  }

  // The price has these rates at every instant of the request.
  ghost predicate Throughout(price: Price, start: int, end: int, context: Option<int>, tier: Option<string>,
                             rates: Option<Rates>)
    requires PriceOk(price)
  {
    forall time :: start <= time <= end ==> (PriceAt(price, time, context, tier) == rates)
  }

  function PriceAtMinute(price: Price, minute: int, context: Option<int>, tier: Option<string>): Option<Rates>
    requires PriceOk(price)
  {
    PriceAt(price, minute * MINUTE, context, tier)
  }

  // Every whole minute after the start and before the given one has the first price.
  ghost predicate SampledBefore(price: Price, start: int, end: int, minute: int, context: Option<int>,
                                tier: Option<string>, first: Option<Rates>)
    requires PriceOk(price)
  {
    forall m :: MinuteOf(start) < m < minute && m * MINUTE <= end ==> (PriceAtMinute(price, m, context, tier) == first)
  }

  predicate CrossesBoundary(boundary: Option<int>, start: int, end: int) {
    boundary.Some? && start < boundary.value <= end
  }

  lemma NextSample(price: Price, start: int, end: int, minute: int, context: Option<int>, tier: Option<string>,
                   first: Option<Rates>)
    requires PriceOk(price) && SampledBefore(price, start, end, minute, context, tier, first)
    requires PriceAtMinute(price, minute, context, tier) == first
    ensures SampledBefore(price, start, end, minute + 1, context, tier, first)
  {
    forall m | MinuteOf(start) < m < minute + 1 && m * MINUTE <= end
      ensures PriceAtMinute(price, m, context, tier) == first {
      assert m == minute || m < minute;
    }
  }

  lemma MinuteAfter(time: int, minute: int)
    requires MinuteOf(time) < minute
    ensures time < minute * MINUTE
  {
  }

  method SamplesAgree(price: Price, start: int, end: int, context: Option<int>, tier: Option<string>,
                      first: Option<Rates>)
    returns (agree: bool, ghost last: int)
    requires PriceOk(price) && start <= end
    ensures agree ==> SampledBefore(price, start, end, last, context, tier, first) && last * MINUTE > end
    ensures !agree ==> start < last * MINUTE <= end && PriceAt(price, last * MINUTE, context, tier) != first
  {
    var minute := MinuteOf(start) + 1;
    while minute * MINUTE <= end
      invariant MinuteOf(start) < minute && SampledBefore(price, start, end, minute, context, tier, first)
      decreases end - minute * MINUTE
    {
      var sample := ComputeEffective(price, Moment(Some(minute * MINUTE), context, tier));
      if sample != first {
        MinuteAfter(start, minute);
        return false, minute;
      }
      NextSample(price, start, end, minute, context, tier, first);
      minute := minute + 1;
    }
    return true, minute;
  }

  // One price for the whole request, or none: sampled at its ends and at every minute between.
  method SamplePrice(price: Price, start: int, end: int, context: Option<int>, tier: Option<string>)
    returns (rates: Option<Rates>)
    requires PriceOk(price) && start <= end
    ensures rates.Some? ==> Throughout(price, start, end, context, tier, rates)
    ensures rates.None? ==> forall r :: Throughout(price, start, end, context, tier, r) ==> r.None?
  {
    var first := ComputeEffective(price, Moment(Some(start), context, tier));
    if first.None? {
      NoPriceAtStart(price, start, end, context, tier);
      return None;
    }
    var last := ComputeEffective(price, Moment(Some(end), context, tier));
    if last != first {
      Differs(price, start, end, start, end, context, tier);
      return None;
    }
    ghost var minute: int;
    var agree: bool;
    agree, minute := SamplesAgree(price, start, end, context, tier, first);
    if !agree {
      Differs(price, start, end, start, minute * MINUTE, context, tier);
      return None;
    }
    // Never taken: a price in force at both ends has no boundary between them.
    if CrossesBoundary(price.validFrom, start, end) || CrossesBoundary(price.validUntil, start, end) {
      return None;
    }
    AllSampled(price, start, end, minute, context, tier, first);
    return first;
  }

  lemma NoPriceAtStart(price: Price, start: int, end: int, context: Option<int>, tier: Option<string>)
    requires PriceOk(price) && start <= end && PriceAt(price, start, context, tier).None?
    ensures forall r :: Throughout(price, start, end, context, tier, r) ==> r.None?
  {
  }

  lemma Differs(price: Price, start: int, end: int, s: int, t: int, context: Option<int>, tier: Option<string>)
    requires PriceOk(price) && start <= s <= end && start <= t <= end
    requires PriceAt(price, s, context, tier) != PriceAt(price, t, context, tier)
    ensures forall r :: !Throughout(price, start, end, context, tier, r)
  {
  }

  lemma AllSampled(price: Price, start: int, end: int, minute: int, context: Option<int>, tier: Option<string>,
                   first: Option<Rates>)
    requires PriceOk(price) && start <= end < minute * MINUTE && first.Some?
             && PriceAt(price, start, context, tier) == first
    requires SampledBefore(price, start, end, minute, context, tier, first)
    requires !CrossesBoundary(price.validUntil, start, end)
    ensures Throughout(price, start, end, context, tier, first)
  {
    forall t | start <= t <= end ensures PriceAt(price, t, context, tier) == first {
      SampledMinute(price, start, end, t, minute, context, tier, first);
    }
  }

  method BillingPriceForFact(price: Price, start: Option<int>, end: Option<int>, context: Option<int>,
                             tier: Option<string>)
    returns (rates: Option<Rates>)
    requires PriceOk(price)
    ensures HasNoRules(price) ==> rates == Some(price.rates)
    ensures !HasNoRules(price) && (start.None? || end.None?) ==> rates == Effective(price, Moment(None, context, tier))
    ensures !HasNoRules(price) && start.Some? && end.Some? && !SpanOk(start.value, end.value) ==> rates.None?
    ensures !HasNoRules(price) && start.Some? && end.Some? && SpanOk(start.value, end.value) ==>
              && (rates.Some? ==> Throughout(price, start.value, end.value, context, tier, rates))
              && (rates.None? ==> forall r :: Throughout(price, start.value, end.value, context, tier, r) ==> r.None?)
  {
    if HasNoRules(price) {
      return Some(price.rates);
    }
    if start.None? || end.None? {
      rates := ComputeEffective(price, Moment(None, context, tier));
      return;
    }
    if !SpanOk(start.value, end.value) {
      return None;
    }
    rates := SamplePrice(price, start.value, end.value, context, tier);
  }

  lemma SameMinute(c: Condition, a: Moment, b: Moment)
    requires a.context == b.context && a.tier == b.tier && a.time.Some? && b.time.Some?
             && MinuteOf(a.time.value) == MinuteOf(b.time.value)
    ensures ConditionAt(c, a) == ConditionAt(c, b)
    decreases c
  {
    match c
    case AllOf(all) =>
      forall i | 0 <= i < |all| ensures ConditionAt(all[i], a) == ConditionAt(all[i], b) {
        SameMinute(all[i], a, b);
      }
      assert seq(|all|, i requires 0 <= i < |all| => ConditionAt(all[i], a))
        == seq(|all|, i requires 0 <= i < |all| => ConditionAt(all[i], b));
    case AnyOf(any) =>
      forall i | 0 <= i < |any| ensures ConditionAt(any[i], a) == ConditionAt(any[i], b) {
        SameMinute(any[i], a, b);
      }
      assert seq(|any|, i requires 0 <= i < |any| => ConditionAt(any[i], a))
        == seq(|any|, i requires 0 <= i < |any| => ConditionAt(any[i], b));
    case Not(negated) => SameMinute(negated, a, b);
    case _ =>
  }

  lemma {:induction false} SameSelected(rates: Rates, overrides: seq<Override>, a: Moment, b: Moment)
    requires forall c :: ConditionAt(c, a) == ConditionAt(c, b)
    ensures Selected(rates, overrides, a) == Selected(rates, overrides, b)
    decreases |overrides|
  {
    if overrides != [] {
      SameSelected(rates, overrides[..|overrides| - 1], a, b);
    }
  }

  lemma {:induction false} SameFactor(multipliers: seq<Multiplier>, a: Moment, b: Moment)
    requires FactorsOk(multipliers) && forall c :: ConditionAt(c, a) == ConditionAt(c, b)
    ensures Factor(multipliers, a) == Factor(multipliers, b)
    decreases |multipliers|
  {
    if multipliers != [] {
      SameFactor(multipliers[..|multipliers| - 1], a, b);
    }
  }

  // Within one minute, and within the price's term, the price does not change.
  lemma SameMinuteSamePrice(price: Price, s: int, t: int, context: Option<int>, tier: Option<string>)
    requires PriceOk(price) && MinuteOf(s) == MinuteOf(t)
    requires InForce(price, Moment(Some(s), context, tier)) == InForce(price, Moment(Some(t), context, tier))
    ensures PriceAt(price, s, context, tier) == PriceAt(price, t, context, tier)
  {
    var a, b := Moment(Some(s), context, tier), Moment(Some(t), context, tier);
    forall c ensures ConditionAt(c, a) == ConditionAt(c, b) {
      SameMinute(c, a, b);
    }
    SameSelected(price.rates, price.overrides, a, b);
    SameFactor(price.multipliers, a, b);
  }

  lemma MinuteStart(t: int)
    ensures MinuteOf(t) * MINUTE <= t && MinuteOf(MinuteOf(t) * MINUTE) == MinuteOf(t)
            && MinuteOf(t) * MINUTE % MINUTE == 0
  {
  }

  lemma SampledMinute(price: Price, from: int, to: int, t: int, minute: int, context: Option<int>, tier: Option<string>,
                      first: Option<Rates>)
    requires PriceOk(price) && from <= t <= to < minute * MINUTE && first.Some?
    requires PriceAt(price, from, context, tier) == first
             && SampledBefore(price, from, to, minute, context, tier, first)
    requires !CrossesBoundary(price.validUntil, from, to)
    ensures PriceAt(price, t, context, tier) == first
  {
    var m := MinuteOf(t);
    MinuteStart(t);
    if m == MinuteOf(from) {
      SameMinuteSamePrice(price, from, t, context, tier);
    } else {
      assert PriceAtMinute(price, m, context, tier) == first;
      SameMinuteSamePrice(price, m * MINUTE, t, context, tier);
    }
  }

  lemma PlainRate(rate: string)
    requires IsRate(rate)
    ensures ScaledRate(rate, SCALE) == Some(Amount(RateUnits(rate), RATE_PLACES))
  {
    RateBelow(rate);
    RateFits(RateUnits(rate));
    TimesOne(RateUnits(rate));
  }

  lemma NoRulesApply(rates: Rates, at: Moment)
    ensures Selected(rates, [], at) == Some(rates) && Factor([], at) == Some(SCALE)
  {
  }

  lemma EffectiveIs(price: Price, at: Moment, selected: Rates, factor: nat)
    requires PriceOk(price) && InForce(price, at) && RatesOk(selected)
    requires Selected(price.rates, price.overrides, at) == Some(selected)
             && Factor(price.multipliers, at) == Some(factor)
    ensures Effective(price, at) == Scaled(selected, factor)
  {
  }

  lemma PlainEffective(price: Price, at: Moment)
    requires PriceOk(price) && HasNoRules(price)
    ensures Effective(price, at) == Scaled(price.rates, SCALE)
  {
    NoRulesApply(price.rates, at);
    EffectiveIs(price, at, price.rates, SCALE);
  }

  lemma PlainAll(rates: Rates)
    requires RatesOk(rates)
    ensures Scaled(rates, SCALE).Some?
  {
    forall d | d in rates ensures ScaledRate(rates[d], SCALE).Some? {
      PlainRate(rates[d]);
    }
  }

  lemma ScaledAt(rates: Rates, factor: nat, c: Category)
    requires RatesOk(rates) && Scaled(rates, factor).Some? && c in rates
    ensures c in Scaled(rates, factor).value && ScaledRate(rates[c], factor) == Some(Scaled(rates, factor).value[c])
  {
  }

  lemma PlainScaled(rates: Rates, c: Category)
    requires RatesOk(rates) && c in rates
    ensures Scaled(rates, SCALE).Some? && c in Scaled(rates, SCALE).value
    ensures IsRate(Scaled(rates, SCALE).value[c]) && RateUnits(Scaled(rates, SCALE).value[c]) == RateUnits(rates[c])
  {
    PlainAll(rates);
    ScaledAt(rates, SCALE, c);
    ScaledRateExact(rates[c], SCALE);
  }

  // A price without rules has its own rates at every moment.
  lemma PlainPrice(price: Price, at: Moment, c: Category)
    requires PriceOk(price) && HasNoRules(price) && c in price.rates
    ensures var rates := Effective(price, at);
            && rates.Some? && c in rates.value && IsRate(rates.value[c])
            && RateUnits(rates.value[c]) == RateUnits(price.rates[c])
  {
    PlainEffective(price, at);
    PlainScaled(price.rates, c);
  }

  // ---- what is not known does not matter ----

  predicate Refines<T(==)>(known: Option<T>, more: Option<T>) {
    known.Some? ==> more == known
  }

  predicate Completes(at: Moment, more: Moment) {
    Refines(at.time, more.time) && Refines(at.context, more.context) && Refines(at.tier, more.tier)
  }

  lemma ConditionMonotone(c: Condition, at: Moment, more: Moment)
    requires Completes(at, more)
    ensures Refines(ConditionAt(c, at), ConditionAt(c, more))
    decreases c
  {
    match c
    case AllOf(all) =>
      var a, b :=
        seq(|all|, i requires 0 <= i < |all| => ConditionAt(all[i], at)),
        seq(|all|, i requires 0 <= i < |all| => ConditionAt(all[i], more));
      forall i | 0 <= i < |all| ensures Refines(a[i], b[i]) {
        ConditionMonotone(all[i], at, more);
      }
      EveryMonotone(a, b);
    case AnyOf(any) =>
      var a, b :=
        seq(|any|, i requires 0 <= i < |any| => ConditionAt(any[i], at)),
        seq(|any|, i requires 0 <= i < |any| => ConditionAt(any[i], more));
      forall i | 0 <= i < |any| ensures Refines(a[i], b[i]) {
        ConditionMonotone(any[i], at, more);
      }
      AnyMonotone(a, b);
    case Not(negated) => ConditionMonotone(negated, at, more);
    case _ =>
  }

  lemma EveryMonotone(a: seq<Option<bool>>, b: seq<Option<bool>>)
    requires |a| == |b| && forall i :: 0 <= i < |a| ==> Refines(a[i], b[i])
    ensures Refines(Every(a), Every(b))
  {
    if Some(false) in a {
      var i :| 0 <= i < |a| && a[i] == Some(false);
      assert b[i] == Some(false);
    } else if None !in a {
      assert a == b;
    }
  }

  lemma AnyMonotone(a: seq<Option<bool>>, b: seq<Option<bool>>)
    requires |a| == |b| && forall i :: 0 <= i < |a| ==> Refines(a[i], b[i])
    ensures Refines(Any(a), Any(b))
  {
    if Some(true) in a {
      var i :| 0 <= i < |a| && a[i] == Some(true);
      assert b[i] == Some(true);
    } else if None !in a {
      assert a == b;
    }
  }

  lemma {:induction false} SelectedMonotone(rates: Rates, overrides: seq<Override>, at: Moment, more: Moment)
    requires Completes(at, more)
    ensures Refines(Selected(rates, overrides, at), Selected(rates, overrides, more))
    decreases |overrides|
  {
    if overrides != [] {
      SelectedMonotone(rates, overrides[..|overrides| - 1], at, more);
      ConditionMonotone(overrides[|overrides| - 1].when, at, more);
    }
  }

  lemma {:induction false} ParsedBelow(s: string)
    requires Digits(s)
    ensures ParseNat(s) < Pow10(|s|)
    decreases |s|
  {
    if s != "" {
      ParsedBelow(s[..|s| - 1]);
    }
  }

  lemma {:induction false} PowersGrow(a: nat, b: nat)
    requires a <= b
    ensures Pow10(a) <= Pow10(b)
    decreases b
  {
    if a < b {
      PowersGrow(a, b - 1);
    }
  }

  lemma RateBelow(rate: string)
    requires IsRate(rate)
    ensures RateUnits(rate) < Pow10(18)
  {
    RateIsDecimal(rate);
    ParsedBelow(Whole(rate));
    PowersGrow(|Whole(rate)|, 9);
    FractionFits(rate);
    ParsedBelow(PadEnd(Fraction(rate), 9));
    assert Pow10(9) == 1000000000;
    assert Pow10(18) == 1000000000000000000;
  }

  lemma FractionFits(rate: string)
    requires IsRate(rate)
    ensures |Fraction(rate)| <= 9
  {
    if DotAt(rate) < |rate| {
      DotAfter(rate[DotAt(rate) + 1..], "");
    }
  }

  lemma TimesOne(factor: nat)
    ensures Times(factor, SCALE) == Some(factor)
  {
  }

  lemma {:induction false} FactorMonotone(multipliers: seq<Multiplier>, at: Moment, more: Moment)
    requires FactorsOk(multipliers) && Completes(at, more)
    ensures Refines(Factor(multipliers, at), Factor(multipliers, more))
    decreases |multipliers|
  {
    if multipliers != [] {
      var init, rule := multipliers[..|multipliers| - 1], multipliers[|multipliers| - 1];
      FactorMonotone(init, at, more);
      ConditionMonotone(rule.when, at, more);
      if Factor(init, at).Some? {
        TimesOne(Factor(init, at).value);
      }
    }
  }

  // A price resolved with something unknown is the price however the unknown turns out.
  lemma UnknownsDoNotMatter(price: Price, at: Moment, more: Moment)
    requires PriceOk(price) && Completes(at, more)
    ensures Refines(Effective(price, at), Effective(price, more))
  {
    SelectedOk(price.rates, price.overrides, at);
    SelectedMonotone(price.rates, price.overrides, at, more);
    FactorMonotone(price.multipliers, at, more);
  }

  // ---- multipliers are exact ----

  // The factors that apply.
  function Applied(multipliers: seq<Multiplier>, at: Moment): seq<nat>
    requires FactorsOk(multipliers)
  {
    if multipliers == [] then []
    else
      var rule := multipliers[|multipliers| - 1];
      Applied(multipliers[..|multipliers| - 1], at)
      + if ConditionAt(rule.when, at) == Some(true) then [RateUnits(rule.factor)] else []
  }

  function Product(units: seq<nat>): nat {
    if units == [] then 1 else Product(units[..|units| - 1]) * units[|units| - 1]
  }

  function Power(base: nat, k: nat): nat {
    if k == 0 then 1 else Power(base, k - 1) * base
  }

  lemma TimesExact(factor: nat, units: nat)
    requires Times(factor, units).Some?
    ensures Times(factor, units).value * SCALE == factor * units
  {
  }

  lemma {:induction false} FactorExact(multipliers: seq<Multiplier>, at: Moment)
    requires FactorsOk(multipliers) && Factor(multipliers, at).Some?
    ensures var applied := Applied(multipliers, at);
            Factor(multipliers, at).value * Power(SCALE, |applied|) == SCALE * Product(applied)
    decreases |multipliers|
  {
    if multipliers != [] {
      var init, rule := multipliers[..|multipliers| - 1], multipliers[|multipliers| - 1];
      FactorExact(init, at);
      var before, applied := Factor(init, at).value, Applied(init, at);
      if ConditionAt(rule.when, at) == Some(true) {
        var u := RateUnits(rule.factor);
        TimesExact(before, u);
        assert (applied + [u])[..|applied|] == applied;
        Rearranged(Factor(multipliers, at).value, before, u, Power(SCALE, |applied|), Product(applied));
      } else {
        assert applied + [] == applied;
      }
    }
  }

  lemma Rearranged(next: nat, before: nat, u: nat, power: nat, product: nat)
    requires next * SCALE == before * u && before * power == SCALE * product
    ensures next * (power * SCALE) == SCALE * (product * u)
  {
    calc {
      next * (power * SCALE);
      (next * SCALE) * power;
      (before * u) * power;
      (before * power) * u;
      (SCALE * product) * u;
      SCALE * (product * u);
    }
  }

  // Every rate of a resolved price is its selected rate times all factors that apply, without rounding.
  lemma RatesAreExactProducts(price: Price, at: Moment, c: Category)
    requires PriceOk(price) && Effective(price, at).Some? && c in Effective(price, at).value
    ensures var selected := Selected(price.rates, price.overrides, at);
            var applied := Applied(price.multipliers, at);
            && selected.Some? && c in selected.value && IsRate(selected.value[c])
            && IsRate(Effective(price, at).value[c])
            && RateUnits(Effective(price, at).value[c]) * Power(SCALE, |applied|)
               == RateUnits(selected.value[c]) * Product(applied)
  {
    SelectedOk(price.rates, price.overrides, at);
    FactorExact(price.multipliers, at);
    var base := Selected(price.rates, price.overrides, at).value[c];
    var applied := Applied(price.multipliers, at);
    var factor := Factor(price.multipliers, at).value;
    ScaledRateExact(base, factor);
    ScaledExactly(RateUnits(ScaledRate(base, factor).value), RateUnits(base), factor, Power(SCALE, |applied|),
                  Product(applied));
  }

  lemma ScaledRateExact(rate: string, factor: nat)
    requires IsRate(rate) && ScaledRate(rate, factor).Some?
    ensures IsRate(ScaledRate(rate, factor).value)
            && RateUnits(ScaledRate(rate, factor).value) * SCALE == RateUnits(rate) * factor
  {
    var units := Times(RateUnits(rate), factor).value;
    TimesExact(RateUnits(rate), factor);
    UnitsOfAmount(units, RATE_PLACES);
  }

  lemma ScaledExactly(units: nat, base: nat, factor: nat, power: nat, product: nat)
    requires units * SCALE == base * factor && factor * power == SCALE * product
    ensures units * power == base * product
  {
    calc {
      SCALE * (units * power);
      (units * SCALE) * power;
      (base * factor) * power;
      base * (factor * power);
      base * (SCALE * product);
      SCALE * (base * product);
    }
  }
}
