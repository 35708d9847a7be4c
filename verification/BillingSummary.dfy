/**
 The cost of a history by currency and category, and the proof that nothing is lost in summing up.
 */
module BillingSummary {
  import opened Billing
  import opened BillingPeriods
  import opened DecimalText
  import opened Options

  const RATE_LIMIT := 32

  datatype RateSum = RateSum(rate: string, tokens: nat, amount: nat)

  // Groups and their rates are kept in the order they first appeared.
  datatype Group = Group(currency: string, category: Category, tokens: nat, amount: nat, rates: seq<RateSum>,
                         truncated: bool)

  predicate EntriesOk(entries: seq<Entry>) {
    forall i :: 0 <= i < |entries| ==> ChargesOk(entries[i].charges)
  }

  function RateIndex(rates: seq<RateSum>, rate: string): (i: nat)
    ensures i <= |rates| && (i < |rates| ==> rates[i].rate == rate)
    ensures forall j :: 0 <= j < i ==> rates[j].rate != rate
  {
    if rates == [] || rates[0].rate == rate then 0 else 1 + RateIndex(rates[1..], rate)
  }

  function GroupIndex(groups: seq<Group>, currency: string, category: Category): (i: nat)
    ensures i <= |groups| && (i < |groups| ==> groups[i].currency == currency && groups[i].category == category)
    ensures forall j :: 0 <= j < i ==> !(groups[j].currency == currency && groups[j].category == category)
  {
    if groups == [] || (groups[0].currency == currency && groups[0].category == category) then 0
    else 1 + GroupIndex(groups[1..], currency, category)
  }

  // Rates are listed apart up to a limit; the totals go on counting.
  function WithRate(g: Group, rate: string, tokens: nat, amount: nat): Group {
    var i := RateIndex(g.rates, rate);
    if i < |g.rates| then
      g.(rates := g.rates[i := RateSum(rate, g.rates[i].tokens + tokens, g.rates[i].amount + amount)])
    else if |g.rates| < RATE_LIMIT then g.(rates := g.rates + [RateSum(rate, tokens, amount)])
    else g.(truncated := true)
  }

  function RateKey(rate: string): string
    requires IsRate(rate)
  {
    RateIsDecimal(rate);
    Amount(Units(rate, MONEY_PLACES), MONEY_PLACES)
  }

  // A charge as it is added up.
  datatype Line = Line(category: Category, rate: string, tokens: nat, amount: nat)

  function LineOf(c: Charge): Line
    requires ChargeOk(c)
  {
    Line(c.category, RateKey(c.rate), c.tokens, Units(c.amount, MONEY_PLACES))
  }

  function Counted(g: Group, l: Line): Group {
    WithRate(g.(tokens := g.tokens + l.tokens, amount := g.amount + l.amount), l.rate, l.tokens, l.amount)
  }

  function AddLine(groups: seq<Group>, currency: string, l: Line): seq<Group> {
    var i := GroupIndex(groups, currency, l.category);
    if i < |groups| then groups[i := Counted(groups[i], l)]
    else groups + [Counted(Group(currency, l.category, 0, 0, [], false), l)]
  }

  function AddCharges(groups: seq<Group>, currency: string, charges: seq<Charge>): seq<Group>
    requires ChargesOk(charges)
  {
    if charges == [] then groups
    else AddLine(AddCharges(groups, currency, charges[..|charges| - 1]), currency, LineOf(charges[|charges| - 1]))
  }

  function AddEntry(groups: seq<Group>, entry: Entry): seq<Group>
    requires ChargesOk(entry.charges)
  {
    if entry.currency.None? then groups else AddCharges(groups, entry.currency.value, entry.charges)
  }

  function Groups(entries: seq<Entry>): seq<Group>
    requires EntriesOk(entries)
  {
    if entries == [] then [] else AddEntry(Groups(entries[..|entries| - 1]), entries[|entries| - 1])
  }

  // ---- the output ----

  datatype RateLine = RateLine(rate: string, tokens: string, amount: string)

  datatype Breakdown = Breakdown(
    category: Category, currency: string, tokens: string, amount: string, rates: seq<RateLine>, ratesTruncated: bool)

  function RateLines(rates: seq<RateSum>): seq<RateLine> {
    seq(|rates|,
        i requires 0 <= i < |rates| => RateLine(rates[i].rate, PrintNat(rates[i].tokens),
                                                Amount(rates[i].amount, MONEY_PLACES)))
  }

  function Shown(g: Group): Breakdown {
    Breakdown(g.category, g.currency, PrintNat(g.tokens), Amount(g.amount, MONEY_PLACES), RateLines(g.rates),
              g.truncated)
  }

  function ShownAll(groups: seq<Group>): seq<Breakdown> {
    seq(|groups|, i requires 0 <= i < |groups| => Shown(groups[i]))
  }

  // How many entries have the issue, and how many of them are attempts.
  function IssueCount(entries: seq<Entry>, issue: Issue): nat {
    if entries == [] then 0
    else IssueCount(entries[..|entries| - 1], issue) + if issue in entries[|entries| - 1].issues then 1 else 0
  }

  function AttemptCount(entries: seq<Entry>, issue: Issue): nat {
    if entries == [] then 0
    else
      AttemptCount(entries[..|entries| - 1], issue)
      + if issue in entries[|entries| - 1].issues && entries[|entries| - 1].isAttempt then 1 else 0
  }

  datatype IssueTally = IssueTally(count: nat, attempts: nat)

  function TallyAt(tallies: map<Issue, IssueTally>, issue: Issue): IssueTally {
    if issue in tallies then tallies[issue] else IssueTally(0, 0)
  }

  function Bumped(t: IssueTally, entry: Entry): IssueTally {
    IssueTally(t.count + 1, t.attempts + if entry.isAttempt then 1 else 0)
  }

  // The tallies are those of the entries, and only issues that occur have one.
  predicate TalliesOf(tallies: map<Issue, IssueTally>, entries: seq<Entry>) {
    forall issue: Issue ::
      && TallyAt(tallies, issue) == IssueTally(IssueCount(entries, issue), AttemptCount(entries, issue))
      && (issue in tallies ==> IssueCount(entries, issue) > 0)
  }

  // What counting some of the entry's issues makes of the tallies.
  ghost predicate Counts(tallies: map<Issue, IssueTally>, after: map<Issue, IssueTally>, counted: set<Issue>,
                         entry: Entry) {
    && after.Keys == tallies.Keys + counted
    && forall issue ::
       TallyAt(after, issue)
         == if issue in counted then Bumped(TallyAt(tallies, issue), entry) else TallyAt(tallies, issue)
  }

  lemma CountsOneMore(tallies: map<Issue, IssueTally>, after: map<Issue, IssueTally>, counted: set<Issue>, issue: Issue,
                      entry: Entry)
    requires Counts(tallies, after, counted, entry) && issue !in counted
    ensures Counts(tallies, after[issue := Bumped(TallyAt(after, issue), entry)], counted + {issue}, entry)
  {
    var next := after[issue := Bumped(TallyAt(after, issue), entry)];
    assert next.Keys == after.Keys + {issue};
    forall i: Issue
      ensures TallyAt(next, i)
              == if i in counted + {issue} then Bumped(TallyAt(tallies, i), entry) else TallyAt(tallies, i)
    {
      assert TallyAt(after, i) == if i in counted then Bumped(TallyAt(tallies, i), entry) else TallyAt(tallies, i);
    }
  }

  lemma CountsNone(tallies: map<Issue, IssueTally>, entry: Entry)
    ensures Counts(tallies, tallies, {}, entry)
  {
  }

  method CountIssues(tallies: map<Issue, IssueTally>, entry: Entry) returns (after: map<Issue, IssueTally>)
    ensures Counts(tallies, after, entry.issues, entry)
  {
    after := tallies;
    var counted := {};
    CountsNone(tallies, entry);
    while counted != entry.issues
      invariant counted <= entry.issues && Counts(tallies, after, counted, entry)
      decreases entry.issues - counted
    {
      var issue := NextIssue(entry.issues, counted);
      CountsOneMore(tallies, after, counted, issue, entry);
      after := after[issue := Bumped(TallyAt(after, issue), entry)];
      counted := counted + {issue};
    }
  }

  method NextIssue(issues: set<Issue>, counted: set<Issue>) returns (issue: Issue)
    requires counted < issues
    ensures issue in issues && issue !in counted
  {
    issue :| issue in issues && issue !in counted;
  }

  lemma TalliesGrow(tallies: map<Issue, IssueTally>, after: map<Issue, IssueTally>, entries: seq<Entry>, entry: Entry)
    requires TalliesOf(tallies, entries) && Counts(tallies, after, entry.issues, entry)
    ensures TalliesOf(after, entries + [entry])
  {
    assert (entries + [entry])[..|entries|] == entries;
    forall issue: Issue
      ensures TallyAt(after, issue)
              == IssueTally(IssueCount(entries + [entry], issue), AttemptCount(entries + [entry], issue))
      ensures issue in after ==> IssueCount(entries + [entry], issue) > 0
    {
      assert TallyAt(tallies, issue) == IssueTally(IssueCount(entries, issue), AttemptCount(entries, issue));
      assert issue in after.Keys <==> issue in tallies.Keys || issue in entry.issues;
    }
  }

  method AddEntryCharges(groups: seq<Group>, entry: Entry) returns (after: seq<Group>)
    requires ChargesOk(entry.charges)
    ensures after == AddEntry(groups, entry)
  {
    after := groups;
    if entry.currency.None? {
      return;
    }
    for k := 0 to |entry.charges|
      invariant after == AddCharges(groups, entry.currency.value, entry.charges[..k])
    {
      assert entry.charges[..k + 1][..k] == entry.charges[..k];
      after := AddLine(after, entry.currency.value, LineOf(entry.charges[k]));
    }
    assert entry.charges[..|entry.charges|] == entry.charges;
  }

  method SummarizeBillingEntries(entries: seq<Entry>)
    returns (breakdown: seq<Breakdown>, tallies: map<Issue, IssueTally>)
    requires EntriesOk(entries)
    ensures breakdown == ShownAll(Groups(entries)) && TalliesOf(tallies, entries)
  {
    var groups: seq<Group> := [];
    tallies := map[];
    for k := 0 to |entries|
      invariant groups == Groups(entries[..k]) && TalliesOf(tallies, entries[..k])
    {
      assert entries[..k + 1][..k] == entries[..k];
      ghost var before := tallies;
      tallies := CountIssues(tallies, entries[k]);
      TalliesGrow(before, tallies, entries[..k], entries[k]);
      assert entries[..k + 1] == entries[..k] + [entries[k]];
      groups := AddEntryCharges(groups, entries[k]);
    }
    assert entries[..|entries|] == entries;
    breakdown := ShownAll(groups);
  }

  // ---- conservation ----

  // What is added up.
  datatype Measure = Tokens | Money

  function Part(m: Measure, tokens: int, amount: int): int {
    match m
    case Tokens => tokens
    case Money => amount
  }

  predicate Selects(only: Option<Category>, category: Category) {
    only == None || only == Some(category)
  }

  function GroupPart(g: Group, currency: string, only: Option<Category>, m: Measure): int {
    if g.currency == currency && Selects(only, g.category) then Part(m, g.tokens, g.amount) else 0
  }

  // The groups of a currency, of one category or of all.
  function GroupSum(groups: seq<Group>, currency: string, only: Option<Category>, m: Measure): int {
    if groups == [] then 0
    else GroupSum(groups[..|groups| - 1], currency, only, m) + GroupPart(groups[|groups| - 1], currency, only, m)
  }

  function LinePart(l: Line, only: Option<Category>, m: Measure): int {
    if Selects(only, l.category) then Part(m, l.tokens, l.amount) else 0
  }

  function ChargeSum(charges: seq<Charge>, only: Option<Category>, m: Measure): int
    requires ChargesOk(charges)
  {
    if charges == [] then 0
    else ChargeSum(charges[..|charges| - 1], only, m) + LinePart(LineOf(charges[|charges| - 1]), only, m)
  }

  function EntrySum(entries: seq<Entry>, currency: string, only: Option<Category>, m: Measure): int
    requires EntriesOk(entries)
  {
    if entries == [] then 0
    else
      var last := entries[|entries| - 1];
      EntrySum(entries[..|entries| - 1], currency, only, m) + EntryPart(last, currency, only, m)
  }

  lemma {:induction false} GroupSumAppend(a: seq<Group>, b: seq<Group>, currency: string, only: Option<Category>,
                                          m: Measure)
    ensures GroupSum(a + b, currency, only, m) == GroupSum(a, currency, only, m) + GroupSum(b, currency, only, m)
    decreases |b|
  {
    if b == [] {
      assert a + b == a;
    } else {
      assert (a + b)[..|a + b| - 1] == a + b[..|b| - 1];
      GroupSumAppend(a, b[..|b| - 1], currency, only, m);
    }
  }

  lemma GroupSumOne(g: Group, currency: string, only: Option<Category>, m: Measure)
    ensures GroupSum([g], currency, only, m) == GroupPart(g, currency, only, m)
  {
    assert [g][..0] == [];
  }

  lemma GroupSumReplaced(groups: seq<Group>, i: nat, g: Group, currency: string, only: Option<Category>, m: Measure)
    requires i < |groups|
    ensures GroupSum(groups[i := g], currency, only, m)
            == GroupSum(groups, currency, only, m) - GroupPart(groups[i], currency, only, m)
               + GroupPart(g, currency, only, m)
  {
    var a, b := groups[..i], groups[i + 1..];
    assert groups == a + [groups[i]] + b && groups[i := g] == a + [g] + b;
    GroupSumAppend(a + [groups[i]], b, currency, only, m);
    GroupSumAppend(a, [groups[i]], currency, only, m);
    GroupSumAppend(a + [g], b, currency, only, m);
    GroupSumAppend(a, [g], currency, only, m);
    GroupSumOne(groups[i], currency, only, m);
    GroupSumOne(g, currency, only, m);
  }

  lemma CountedSum(g: Group, l: Line)
    ensures var after := Counted(g, l);
            && after.currency == g.currency && after.category == g.category
            && after.tokens == g.tokens + l.tokens && after.amount == g.amount + l.amount
  {
  }

  lemma CountedPart(g: Group, l: Line, at: string, only: Option<Category>, m: Measure)
    requires g.category == l.category
    ensures GroupPart(Counted(g, l), at, only, m)
            == GroupPart(g, at, only, m) + if g.currency == at then LinePart(l, only, m) else 0
  {
    CountedSum(g, l);
  }

  lemma AddLineSums(groups: seq<Group>, currency: string, l: Line, at: string, only: Option<Category>, m: Measure)
    ensures GroupSum(AddLine(groups, currency, l), at, only, m)
            == GroupSum(groups, at, only, m) + if currency == at then LinePart(l, only, m) else 0
  {
    var i := GroupIndex(groups, currency, l.category);
    if i < |groups| {
      CountedPart(groups[i], l, at, only, m);
      GroupSumReplaced(groups, i, Counted(groups[i], l), at, only, m);
    } else {
      var empty := Group(currency, l.category, 0, 0, [], false);
      CountedPart(empty, l, at, only, m);
      GroupSumAppend(groups, [Counted(empty, l)], at, only, m);
      GroupSumOne(Counted(empty, l), at, only, m);
    }
  }

  lemma {:induction false} AddChargesSum(groups: seq<Group>, currency: string, charges: seq<Charge>, at: string,
                                         only: Option<Category>, m: Measure)
    requires ChargesOk(charges)
    ensures GroupSum(AddCharges(groups, currency, charges), at, only, m)
            == GroupSum(groups, at, only, m) + if currency == at then ChargeSum(charges, only, m) else 0
    decreases |charges|
  {
    if charges != [] {
      var init := charges[..|charges| - 1];
      AddChargesSum(groups, currency, init, at, only, m);
      AddLineSums(AddCharges(groups, currency, init), currency, LineOf(charges[|charges| - 1]), at, only, m);
    }
  }

  function EntryPart(entry: Entry, currency: string, only: Option<Category>, m: Measure): int
    requires ChargesOk(entry.charges)
  {
    if entry.currency == Some(currency) then ChargeSum(entry.charges, only, m) else 0
  }

  lemma AddEntrySums(groups: seq<Group>, entry: Entry, currency: string, only: Option<Category>, m: Measure)
    requires ChargesOk(entry.charges)
    ensures GroupSum(AddEntry(groups, entry), currency, only, m)
            == GroupSum(groups, currency, only, m) + EntryPart(entry, currency, only, m)
  {
    if entry.currency.Some? {
      AddChargesSum(groups, entry.currency.value, entry.charges, currency, only, m);
    }
  }

  // The breakdown of a currency, by category and altogether, is the sum of its entries' charges.
  lemma {:induction false} SummaryConserves(entries: seq<Entry>, currency: string, only: Option<Category>, m: Measure)
    requires EntriesOk(entries)
    ensures GroupSum(Groups(entries), currency, only, m) == EntrySum(entries, currency, only, m)
    decreases |entries|
  {
    if entries != [] {
      var init := entries[..|entries| - 1];
      SummaryConserves(init, currency, only, m);
      AddEntrySums(Groups(init), entries[|entries| - 1], currency, only, m);
    }
  }

  lemma {:induction false} ChargeSumIsTotal(charges: seq<Charge>)
    requires ChargesOk(charges) && AmountsAreDecimal(charges)
    ensures ChargeSum(charges, None, Money) == TotalUnits(charges)
    decreases |charges|
  {
    if charges != [] {
      ChargeSumIsTotal(charges[..|charges| - 1]);
    }
  }

  predicate EntriesAddUp(entries: seq<Entry>) {
    forall i :: 0 <= i < |entries| ==> EntryAddsUp(entries[i])
  }

  // The amounts of the currency's entries, added up exactly.
  function EntryAmounts(entries: seq<Entry>, currency: string): int
    requires EntriesAddUp(entries)
  {
    if entries == [] then 0
    else
      var last := entries[|entries| - 1];
      EntryAmounts(entries[..|entries| - 1], currency)
      + if last.currency == Some(currency) && last.amount.Some? then Units(last.amount.value, MONEY_PLACES) else 0
  }

  lemma LastEntryAmount(e: Entry)
    requires EntryAddsUp(e) && e.currency.Some?
    ensures e.amount.Some? && Units(e.amount.value, MONEY_PLACES) == ChargeSum(e.charges, None, Money)
  {
    ChargeSumIsTotal(e.charges);
    UnitsOfAmount(TotalUnits(e.charges), MONEY_PLACES);
  }

  lemma {:induction false} EntrySumIsAmounts(entries: seq<Entry>, currency: string)
    requires EntriesAddUp(entries) && EntriesOk(entries)
    ensures EntrySum(entries, currency, None, Money) == EntryAmounts(entries, currency)
    decreases |entries|
  {
    if entries != [] {
      EntrySumIsAmounts(entries[..|entries| - 1], currency);
      if entries[|entries| - 1].currency.Some? {
        LastEntryAmount(entries[|entries| - 1]);
      }
    }
  }

  // The breakdown of a currency adds up to the amounts of its entries.
  lemma BreakdownIsAmounts(entries: seq<Entry>, currency: string)
    requires EntriesAddUp(entries) && EntriesOk(entries)
    ensures GroupSum(Groups(entries), currency, None, Money) == EntryAmounts(entries, currency)
  {
    SummaryConserves(entries, currency, None, Money);
    EntrySumIsAmounts(entries, currency);
  }

  // ---- rates ----

  function RatesSum(rates: seq<RateSum>, m: Measure): int {
    if rates == [] then 0
    else RatesSum(rates[..|rates| - 1], m) + Part(m, rates[|rates| - 1].tokens, rates[|rates| - 1].amount)
  }

  predicate DistinctRates(rates: seq<RateSum>) {
    forall i, j :: 0 <= i < j < |rates| ==> rates[i].rate != rates[j].rate
  }

  // The listed rates account for the whole group unless some were left out.
  predicate RatesAccount(g: Group, m: Measure) {
    && RatesSum(g.rates, m) <= Part(m, g.tokens, g.amount)
    && (!g.truncated ==> RatesSum(g.rates, m) == Part(m, g.tokens, g.amount))
  }

  predicate GroupOk(g: Group) {
    DistinctRates(g.rates) && |g.rates| <= RATE_LIMIT && RatesAccount(g, Tokens) && RatesAccount(g, Money)
  }

  lemma {:induction false} RatesSumReplaced(rates: seq<RateSum>, i: nat, tokens: nat, amount: nat, m: Measure)
    requires i < |rates|
    ensures RatesSum(rates[i := RateSum(rates[i].rate, rates[i].tokens + tokens, rates[i].amount + amount)], m)
            == RatesSum(rates, m) + Part(m, tokens, amount)
    decreases |rates|
  {
    var after := rates[i := RateSum(rates[i].rate, rates[i].tokens + tokens, rates[i].amount + amount)];
    if i < |rates| - 1 {
      RatesSumReplaced(rates[..|rates| - 1], i, tokens, amount, m);
      assert after[..|rates| - 1] == rates[..|rates| - 1][i := after[i]];
    } else {
      assert after[..|rates| - 1] == rates[..|rates| - 1];
    }
  }

  lemma WithRateAccounts(g: Group, rate: string, tokens: nat, amount: nat, m: Measure)
    requires RatesAccount(g, m)
    ensures RatesAccount(WithRate(g.(tokens := g.tokens + tokens, amount := g.amount + amount), rate, tokens, amount),
                         m)
  {
    var i := RateIndex(g.rates, rate);
    if i < |g.rates| {
      RatesSumReplaced(g.rates, i, tokens, amount, m);
    } else if |g.rates| < RATE_LIMIT {
      var more := g.rates + [RateSum(rate, tokens, amount)];
      assert more[..|g.rates|] == g.rates;
    }
  }

  lemma WithRateDistinct(g: Group, rate: string, tokens: nat, amount: nat)
    requires DistinctRates(g.rates) && |g.rates| <= RATE_LIMIT
    ensures DistinctRates(WithRate(g, rate, tokens, amount).rates)
            && |WithRate(g, rate, tokens, amount).rates| <= RATE_LIMIT
  {
  }

  lemma WithRateOk(g: Group, rate: string, tokens: nat, amount: nat)
    requires GroupOk(g)
    ensures GroupOk(WithRate(g.(tokens := g.tokens + tokens, amount := g.amount + amount), rate, tokens, amount))
  {
    WithRateAccounts(g, rate, tokens, amount, Tokens);
    WithRateAccounts(g, rate, tokens, amount, Money);
    WithRateDistinct(g.(tokens := g.tokens + tokens, amount := g.amount + amount), rate, tokens, amount);
  }

  lemma CountedOk(g: Group, l: Line)
    requires GroupOk(g)
    ensures GroupOk(Counted(g, l))
  {
    WithRateOk(g, l.rate, l.tokens, l.amount);
  }

  predicate GroupsOk(groups: seq<Group>) {
    && (forall i :: 0 <= i < |groups| ==> GroupOk(groups[i]))
    && (forall i, j :: 0 <= i < j < |groups| ==>
          groups[i].currency != groups[j].currency || groups[i].category != groups[j].category)
  }

  lemma AddLineOk(groups: seq<Group>, currency: string, l: Line)
    requires GroupsOk(groups)
    ensures GroupsOk(AddLine(groups, currency, l))
  {
    var i := GroupIndex(groups, currency, l.category);
    if i < |groups| {
      CountedSum(groups[i], l);
      CountedOk(groups[i], l);
    } else {
      var empty := Group(currency, l.category, 0, 0, [], false);
      CountedSum(empty, l);
      CountedOk(empty, l);
    }
  }

  lemma {:induction false} AddChargesOk(groups: seq<Group>, currency: string, charges: seq<Charge>)
    requires ChargesOk(charges) && GroupsOk(groups)
    ensures GroupsOk(AddCharges(groups, currency, charges))
    decreases |charges|
  {
    if charges != [] {
      AddChargesOk(groups, currency, charges[..|charges| - 1]);
      AddLineOk(AddCharges(groups, currency, charges[..|charges| - 1]), currency, LineOf(charges[|charges| - 1]));
    }
  }

  // One group for each currency and category, its rates accounting for it.
  lemma {:induction false} SummaryGroupsOk(entries: seq<Entry>)
    requires EntriesOk(entries)
    ensures GroupsOk(Groups(entries))
    decreases |entries|
  {
    if entries != [] {
      var last := entries[|entries| - 1];
      SummaryGroupsOk(entries[..|entries| - 1]);
      if last.currency.Some? {
        AddChargesOk(Groups(entries[..|entries| - 1]), last.currency.value, last.charges);
      }
    }
  }
}
