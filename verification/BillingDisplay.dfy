/**
 The totals of a history by currency, and their agreement with the breakdown, before and after conversion.
 */
module BillingDisplay {
  import opened Billing
  import opened BillingCurrency
  import opened BillingPeriods
  import opened BillingSummary
  import opened DecimalText
  import opened Options

  function TotalIndex(totals: seq<Total>, currency: string): (i: nat)
    ensures i <= |totals| && (i < |totals| ==> totals[i].currency == currency)
  {
    if totals == [] || totals[0].currency == currency then 0 else 1 + TotalIndex(totals[1..], currency)
  }

  function AddTotal(totals: seq<Total>, currency: string, amount: nat): seq<Total> {
    var i := TotalIndex(totals, currency);
    if i < |totals| then totals[i := Total(currency, totals[i].amount + amount)] else totals + [Total(currency, amount)]
  }

  // One total for each currency, in the order the currencies first appeared.
  function Totals(entries: seq<Entry>): seq<Total>
    requires EntriesAddUp(entries)
  {
    if entries == [] then []
    else
      var before, last := Totals(entries[..|entries| - 1]), entries[|entries| - 1];
      if last.currency.Some? then AddTotal(before, last.currency.value, Units(last.amount.value, MONEY_PLACES))
      else before
  }

  // ---- one currency ----

  lemma {:induction false} HomeReplaced(totals: seq<Total>, i: nat, more: nat, currency: string)
    requires i < |totals|
    ensures HomeTotals(totals[i := Total(totals[i].currency, totals[i].amount + more)], currency)
            == HomeTotals(totals, currency) + if totals[i].currency == currency then more else 0
    decreases |totals|
  {
    var after := totals[i := Total(totals[i].currency, totals[i].amount + more)];
    if i < |totals| - 1 {
      HomeReplaced(totals[..|totals| - 1], i, more, currency);
      assert after[..|totals| - 1] == totals[..|totals| - 1][i := after[i]];
    } else {
      assert after[..|totals| - 1] == totals[..|totals| - 1];
    }
  }

  lemma AddTotalHome(totals: seq<Total>, added: string, amount: nat, currency: string)
    ensures HomeTotals(AddTotal(totals, added, amount), currency)
            == HomeTotals(totals, currency) + if added == currency then amount else 0
  {
    var i := TotalIndex(totals, added);
    if i < |totals| {
      HomeReplaced(totals, i, amount, currency);
    } else {
      assert (totals + [Total(added, amount)])[..|totals|] == totals;
    }
  }

  // The total of a currency is the sum of the amounts of its entries.
  lemma {:induction false} TotalsAreAmounts(entries: seq<Entry>, currency: string)
    requires EntriesAddUp(entries)
    ensures HomeTotals(Totals(entries), currency) == EntryAmounts(entries, currency)
    decreases |entries|
  {
    if entries != [] {
      var before, last := entries[..|entries| - 1], entries[|entries| - 1];
      TotalsAreAmounts(before, currency);
      if last.currency.Some? {
        AddTotalHome(Totals(before), last.currency.value, Units(last.amount.value, MONEY_PLACES), currency);
      }
    }
  }

  // ---- all currencies together ----

  function AllTotals(totals: seq<Total>): nat {
    if totals == [] then 0 else AllTotals(totals[..|totals| - 1]) + totals[|totals| - 1].amount
  }

  function AllGroups(groups: seq<Group>): nat {
    if groups == [] then 0 else AllGroups(groups[..|groups| - 1]) + groups[|groups| - 1].amount
  }

  lemma {:induction false} TotalsReplaced(totals: seq<Total>, i: nat, more: nat)
    requires i < |totals|
    ensures AllTotals(totals[i := Total(totals[i].currency, totals[i].amount + more)]) == AllTotals(totals) + more
    decreases |totals|
  {
    var after := totals[i := Total(totals[i].currency, totals[i].amount + more)];
    if i < |totals| - 1 {
      TotalsReplaced(totals[..|totals| - 1], i, more);
      assert after[..|totals| - 1] == totals[..|totals| - 1][i := after[i]];
    } else {
      assert after[..|totals| - 1] == totals[..|totals| - 1];
    }
  }

  lemma AddTotalAll(totals: seq<Total>, currency: string, amount: nat)
    ensures AllTotals(AddTotal(totals, currency, amount)) == AllTotals(totals) + amount
  {
    var i := TotalIndex(totals, currency);
    if i < |totals| {
      TotalsReplaced(totals, i, amount);
    } else {
      assert (totals + [Total(currency, amount)])[..|totals|] == totals;
    }
  }

  lemma {:induction false} GroupsReplaced(groups: seq<Group>, i: nat, g: Group)
    requires i < |groups|
    ensures AllGroups(groups[i := g]) == AllGroups(groups) - groups[i].amount + g.amount
    decreases |groups|
  {
    var after := groups[i := g];
    if i < |groups| - 1 {
      GroupsReplaced(groups[..|groups| - 1], i, g);
      assert after[..|groups| - 1] == groups[..|groups| - 1][i := g];
    } else {
      assert after[..|groups| - 1] == groups[..|groups| - 1];
    }
  }

  lemma AddLineAll(groups: seq<Group>, currency: string, l: Line)
    ensures AllGroups(AddLine(groups, currency, l)) == AllGroups(groups) + l.amount
  {
    var i := GroupIndex(groups, currency, l.category);
    if i < |groups| {
      CountedSum(groups[i], l);
      GroupsReplaced(groups, i, Counted(groups[i], l));
    } else {
      var added := Counted(Group(currency, l.category, 0, 0, [], false), l);
      CountedSum(Group(currency, l.category, 0, 0, [], false), l);
      assert (groups + [added])[..|groups|] == groups;
    }
  }

  lemma ChargeSumPush(charges: seq<Charge>)
    requires ChargesOk(charges) && charges != []
    ensures ChargeSum(charges, None, Money)
            == ChargeSum(charges[..|charges| - 1], None, Money) + LineOf(charges[|charges| - 1]).amount
  {
  }

  lemma {:induction false} AddChargesAll(groups: seq<Group>, currency: string, charges: seq<Charge>)
    requires ChargesOk(charges)
    ensures AllGroups(AddCharges(groups, currency, charges)) == AllGroups(groups) + ChargeSum(charges, None, Money)
    decreases |charges|
  {
    if charges != [] {
      var init := charges[..|charges| - 1];
      ChargeSumPush(charges);
      AddChargesAll(groups, currency, init);
      AddLineAll(AddCharges(groups, currency, init), currency, LineOf(charges[|charges| - 1]));
    }
  }

  lemma {:induction false} BreakdownIsTotals(entries: seq<Entry>)
    requires EntriesAddUp(entries) && EntriesOk(entries)
    ensures AllGroups(Groups(entries)) == AllTotals(Totals(entries))
    decreases |entries|
  {
    if entries != [] {
      var before, last := entries[..|entries| - 1], entries[|entries| - 1];
      BreakdownIsTotals(before);
      if last.currency.Some? {
        LastEntryAmount(last);
        AddChargesAll(Groups(before), last.currency.value, last.charges);
        AddTotalAll(Totals(before), last.currency.value, Units(last.amount.value, MONEY_PLACES));
      }
    }
  }

  // ---- what is in the target currency, and the rest ----

  lemma {:induction false} HomeIsSum(groups: seq<Group>, target: string)
    ensures AtHome(groups, target) == GroupSum(groups, target, None, Money)
    decreases |groups|
  {
    if groups != [] {
      HomeIsSum(groups[..|groups| - 1], target);
    }
  }

  lemma SumPush(xs: seq<nat>, x: nat)
    ensures Sum(xs + [x]) == Sum(xs) + x
  {
    assert (xs + [x])[..|xs|] == xs;
  }

  lemma {:induction false} GroupsSplit(groups: seq<Group>, target: string)
    ensures AtHome(groups, target) + Sum(Foreign(groups, target)) == AllGroups(groups)
    decreases |groups|
  {
    if groups != [] {
      var init, last := groups[..|groups| - 1], groups[|groups| - 1];
      GroupsSplit(init, target);
      if last.currency == target {
        assert Foreign(init, target) + [] == Foreign(init, target);
      } else {
        SumPush(Foreign(init, target), last.amount);
      }
    }
  }

  lemma {:induction false} TotalsSplit(totals: seq<Total>, target: string)
    ensures HomeTotals(totals, target) + Sum(ForeignTotals(totals, target)) == AllTotals(totals)
    decreases |totals|
  {
    if totals != [] {
      var init, last := totals[..|totals| - 1], totals[|totals| - 1];
      TotalsSplit(init, target);
      if last.currency == target {
        assert ForeignTotals(init, target) + [] == ForeignTotals(init, target);
      } else {
        SumPush(ForeignTotals(init, target), last.amount);
      }
    }
  }

  // ---- the rates of a breakdown can be read ----

  ghost predicate Among(rates: seq<RateSum>, names: iset<string>) {
    forall j :: 0 <= j < |rates| ==> rates[j].rate in names
  }

  ghost predicate AllAmong(groups: seq<Group>, names: iset<string>) {
    forall i :: 0 <= i < |groups| ==> Among(groups[i].rates, names)
  }

  lemma CountedAmong(g: Group, l: Line, names: iset<string>)
    requires Among(g.rates, names) && l.rate in names
    ensures Among(Counted(g, l).rates, names)
  {
  }

  lemma AddLineAmong(groups: seq<Group>, currency: string, l: Line, names: iset<string>)
    requires AllAmong(groups, names) && l.rate in names
    ensures AllAmong(AddLine(groups, currency, l), names)
  {
    var i := GroupIndex(groups, currency, l.category);
    CountedAmong(if i < |groups| then groups[i] else Group(currency, l.category, 0, 0, [], false), l, names);
  }

  lemma RateKeyReadable(rate: string)
    requires IsRate(rate)
    ensures IsDecimal(RateKey(rate))
  {
    RateIsDecimal(rate);
    UnitsOfAmount(Units(rate, MONEY_PLACES), MONEY_PLACES);
  }

  lemma {:induction false} AddChargesReadable(groups: seq<Group>, currency: string, charges: seq<Charge>)
    requires ChargesOk(charges) && AllAmong(groups, iset s | IsDecimal(s))
    ensures AllAmong(AddCharges(groups, currency, charges), iset s | IsDecimal(s))
    decreases |charges|
  {
    if charges != [] {
      var init, last := charges[..|charges| - 1], charges[|charges| - 1];
      AddChargesReadable(groups, currency, init);
      RateKeyReadable(last.rate);
      AddLineAmong(AddCharges(groups, currency, init), currency, LineOf(last), iset s | IsDecimal(s));
    }
  }

  lemma {:induction false} GroupsReadable(entries: seq<Entry>)
    requires EntriesOk(entries)
    ensures AllAmong(Groups(entries), iset s | IsDecimal(s))
    decreases |entries|
  {
    if entries != [] {
      var before, last := entries[..|entries| - 1], entries[|entries| - 1];
      GroupsReadable(before);
      if last.currency.Some? {
        AddChargesReadable(Groups(before), last.currency.value, last.charges);
      }
    }
  }

  lemma RatesCanBeRead(entries: seq<Entry>)
    requires EntriesOk(entries)
    ensures RatesReadable(Groups(entries))
  {
    var groups := Groups(entries);
    GroupsReadable(entries);
    forall i, j | 0 <= i < |groups| && 0 <= j < |groups[i].rates| ensures IsDecimal(groups[i].rates[j].rate) {
      assert Among(groups[i].rates, iset s | IsDecimal(s));
    }
  }

  // What is shown of a history: its totals and its breakdown agree in every currency, and after conversion
  // they differ by at most half a unit for every part that was converted.
  lemma SummaryDisplayAgrees(entries: seq<Entry>, target: string, rate: nat)
    requires rate >= 1 && EntriesAddUp(entries)
    ensures EntriesOk(entries) && RatesReadable(Groups(entries))
    ensures HomeTotals(Totals(entries), target) == GroupSum(Groups(entries), target, None, Money)
    ensures var groups, totals := Groups(entries), Totals(entries);
            var parts := |Foreign(groups, target)| + |ForeignTotals(totals, target)|;
            var shown := GroupSum(ConvertGroups(groups, target, rate), target, None, Money);
            -parts <= 2 * shown - 2 * SumConverted(totals, target, rate) <= parts
  {
    var groups, totals := Groups(entries), Totals(entries);
    RatesCanBeRead(entries);
    BreakdownIsAmounts(entries, target);
    TotalsAreAmounts(entries, target);
    BreakdownIsTotals(entries);
    HomeIsSum(groups, target);
    GroupsSplit(groups, target);
    TotalsSplit(totals, target);
    DisplayAgrees(totals, groups, target, rate);
  }
}
