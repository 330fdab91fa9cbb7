/** The statistics screen's derived lists: for the selected month, one row per
    category with its amount and its share of the current month's total, sorted
    by amount; and the net-profit card of the current month. */
module StatisticsScreen {
  import opened Wrappers
  import opened Calendar
  import opened Records
  import opened Seqs
  import opened Dicts
  import opened MoneyUtils
  import opened AppContext

  /** One ranked line: the category found by id (possibly none), the amount, and
      the percentage of the month's total. */
  datatype Row = Row(category: Option<Category>, amount: real, percentage: real)

  function AmountOf(row: Row): real {
    row.amount
  }

  /** `monthTotal ? (amount / monthTotal) * 100 : 0`. */
  function Percentage(amount: real, monthTotal: real): (p: real)
    ensures monthTotal == 0.0 ==> p == 0.0
    ensures monthTotal != 0.0 ==> p * monthTotal == amount * 100.0
  {
    if monthTotal != 0.0 then amount / monthTotal * 100.0 else 0.0
  }

  /** The bar width, `Math.min(percentage, 100)`. */
  function BarWidth(percentage: real): (w: real)
    ensures w <= 100.0 && w <= percentage
    ensures w == 100.0 || w == percentage
  {
    if percentage < 100.0 then percentage else 100.0
  }

  /** The keys of `totals` each name an entry (what `Object.entries` walks). */
  predicate Listed<V>(totals: Dict<string, V>) {
    forall k :: k in totals.keys ==> k in totals.entries
  }

  /** `Object.entries(data).map(...)`, before sorting: one row per key, in key order. */
  function Rows(categories: seq<Category>, totals: Dict<string, real>, monthTotal: real): (r: seq<Row>)
    requires Listed(totals)
    ensures |r| == |totals.keys|
    ensures forall i :: 0 <= i < |r| ==>
      && r[i].amount == totals.entries[totals.keys[i]]
      && r[i].category == CategoryById(categories, totals.keys[i])
      && r[i].percentage == Percentage(r[i].amount, monthTotal)
  {
    seq(|totals.keys|, i requires 0 <= i < |totals.keys| =>
      var amount := totals.entries[totals.keys[i]];
      Row(CategoryById(categories, totals.keys[i]), amount, Percentage(amount, monthTotal)))
  }

  /** `topExpenses`/`topIncomes`: the rows, sorted by amount, descending. */
  function TopRows(categories: seq<Category>, totals: Dict<string, real>, monthTotal: real): (r: seq<Row>)
    requires Listed(totals)
    ensures SortedDesc(r, AmountOf)
    ensures multiset(r) == multiset(Rows(categories, totals, monthTotal))
    ensures |r| == |totals.keys|
  {
    SortDesc(Rows(categories, totals, monthTotal), AmountOf)
  }

  /** When the month total is the sum of non-negative entries (the selected month
      is the current one), every percentage lies between 0 and 100. */
  lemma PercentagesAtMostHundred(categories: seq<Category>, totals: Dict<string, real>, monthTotal: real)
    requires Listed(totals)
    requires forall k :: k in totals.entries ==> totals.entries[k] >= 0.0
    requires SumOver(totals.keys, totals.entries, Identity) == monthTotal
    ensures forall row :: row in TopRows(categories, totals, monthTotal) ==> 0.0 <= row.percentage <= 100.0
  {
    var rows := Rows(categories, totals, monthTotal);
    forall row | row in TopRows(categories, totals, monthTotal) ensures 0.0 <= row.percentage <= 100.0 {
      assert row in multiset(rows);
      var i :| 0 <= i < |rows| && rows[i] == row;
      SumOverBound(totals.keys, totals.entries, Identity, totals.keys[i]);
      ShareAtMostHundred(row.amount, monthTotal);
    }
  }

  lemma ShareAtMostHundred(amount: real, total: real)
    requires 0.0 <= amount <= total
    ensures 0.0 <= Percentage(amount, total) <= 100.0
  {
    if total != 0.0 {
      var q := amount / total;
      assert q * total == amount;
      assert (1.0 - q) * total == total - amount;
    }
  }

  /** For another month the entries need not add up to the current month's total,
      and a share can pass 100: that is why the bar is capped. */
  lemma OtherMonthShareExceedsHundred()
    ensures var totals := Dict(["1"], map["1" := 50.0]);
      var rows := TopRows([], totals, 10.0);
      |rows| == 1 && rows[0].percentage == 500.0 && BarWidth(rows[0].percentage) == 100.0
  {
    var totals := Dict(["1"], map["1" := 50.0]);
    var rows := TopRows([], totals, 10.0);
    assert multiset(rows) == multiset{Row(None, 50.0, 500.0)};
    assert rows[0] in multiset(rows);
  }

  /** The net-profit card: income minus expenses of the current month. */
  function NetProfit(monthlyIncome: real, monthlyExpenses: real): (r: real)
    ensures monthlyExpenses + r == monthlyIncome
    ensures r < 0.0 <==> monthlyExpenses > monthlyIncome
  {
    monthlyIncome - monthlyExpenses
  }

  /** The card reads "in profit" (and takes the success colour) when the net is
      not negative, "in loss" otherwise: a month that breaks even is in profit. */
  predicate InProfit(monthlyIncome: real, monthlyExpenses: real)
    ensures InProfit(monthlyIncome, monthlyExpenses) <==> monthlyIncome >= monthlyExpenses
  {
    NetProfit(monthlyIncome, monthlyExpenses) >= 0.0
  }

  /** When every record of the month is an income or an expense, the net profit
      is the month's balance, so the label says whether that balance is negative. */
  lemma NetProfitIsMonthBalance(ts: seq<Transaction>, now: Timestamp)
    requires TwoKinds(ThisMonth(ts, now))
    ensures var month := ThisMonth(ts, now);
      NetProfit(MonthlyIncome(month), MonthlyExpenses(month)) == Balance(month)
    ensures var month := ThisMonth(ts, now);
      InProfit(MonthlyIncome(month), MonthlyExpenses(month)) <==> Balance(month) >= 0.0
  {
    BalanceIsIncomeMinusExpenses(ThisMonth(ts, now));
  }
}
