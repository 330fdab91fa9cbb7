/** The money helpers: balance, per-type and per-category totals, grouping by
    category, the positivity test, and the sign and symbol logic of currency
    formatting. All of them are folds over a transaction sequence. */
module MoneyUtils {
  import opened Wrappers
  import opened Records
  import opened Seqs
  import opened Dicts
  import Constants

  /** The sum of the amounts of `ts` (`reduce((sum, t) => sum + t.amount, 0)`). */
  function Total(ts: seq<Transaction>): real {
    if ts == [] then 0.0 else ts[0].amount + Total(ts[1..])
  }

  /** What one record contributes to the balance: plus its amount for an income
      record, minus it for every other record. */
  function Signed(t: Transaction): real {
    if t.kind == Income then t.amount else -t.amount
  }

  /** `calculateBalance`: records that are all incomes give their total, records
      none of which is an income give minus their total. */
  function Balance(ts: seq<Transaction>): (r: real)
    ensures (forall t :: t in ts ==> t.kind == Income) ==> r == Total(ts)
    ensures (forall t :: t in ts ==> t.kind != Income) ==> r == -Total(ts)
  {
    if ts == [] then 0.0 else
      assert forall t :: t in ts[1..] ==> t in ts;
      Signed(ts[0]) + Balance(ts[1..])
  }

  /** The records of one type, in order (`filter(t => t.type === kind)`). */
  function OfKind(ts: seq<Transaction>, kind: Kind): seq<Transaction> {
    Filter(ts, (t: Transaction) => t.kind == kind)
  }

  /** `calculateMonthlyExpenses`: the expense records' amounts summed. The caller
      chooses the month by filtering first; the function itself looks at no date. */
  function MonthlyExpenses(ts: seq<Transaction>): (r: real)
    ensures (forall t :: t in ts ==> t.kind != Expense) ==> r == 0.0
  {
    FilterNone(ts, (t: Transaction) => t.kind == Expense);
    Total(OfKind(ts, Expense))
  }

  /** `calculateMonthlyIncome`: the income records' amounts summed. */
  function MonthlyIncome(ts: seq<Transaction>): (r: real)
    ensures (forall t :: t in ts ==> t.kind != Income) ==> r == 0.0
  {
    FilterNone(ts, (t: Transaction) => t.kind == Income);
    Total(OfKind(ts, Income))
  }

  /** The test inside `calculateCategoryTotal`'s filter: a falsy `type` (absent,
      null or "") does not constrain the record's type. */
  predicate InCategory(t: Transaction, categoryId: string, kind: Option<Kind>) {
    (kind.None? || kind.value == "" || t.kind == kind.value) && t.categoryId == categoryId
  }

  /** `calculateCategoryTotal`. A category no record refers to totals 0. */
  function CategoryTotal(ts: seq<Transaction>, categoryId: string, kind: Option<Kind>): (r: real)
    ensures (forall t :: t in ts ==> t.categoryId != categoryId) ==> r == 0.0
  {
    FilterNone(ts, InCategoryTest(categoryId, kind));
    Total(Filter(ts, InCategoryTest(categoryId, kind)))
  }

  function InCategoryTest(categoryId: string, kind: Option<Kind>): Transaction -> bool {
    (t: Transaction) => InCategory(t, categoryId, kind)
  }

  /** Putting one record in front adds its amount exactly when it is counted. */
  lemma CategoryTotalCons(t: Transaction, rest: seq<Transaction>, categoryId: string, kind: Option<Kind>)
    ensures CategoryTotal([t] + rest, categoryId, kind)
         == (if InCategory(t, categoryId, kind) then t.amount else 0.0) + CategoryTotal(rest, categoryId, kind)
  {
    var p := InCategoryTest(categoryId, kind);
    FilterAppend([t], rest, p);
    assert [t][1..] == [];
    TotalAppend(Filter([t], p), Filter(rest, p));
  }

  lemma {:induction false} TotalAppend(a: seq<Transaction>, b: seq<Transaction>)
    ensures Total(a + b) == Total(a) + Total(b)
  {
    if a == [] {
      assert a + b == b;
    } else {
      assert (a + b)[1..] == a[1..] + b;
      TotalAppend(a[1..], b);
    }
  }

  lemma {:induction false} BalanceAppend(a: seq<Transaction>, b: seq<Transaction>)
    ensures Balance(a + b) == Balance(a) + Balance(b)
  {
    if a == [] {
      assert a + b == b;
    } else {
      assert (a + b)[1..] == a[1..] + b;
      BalanceAppend(a[1..], b);
    }
  }

  /** Every record of `ts` is an income or an expense. */
  predicate TwoKinds(ts: seq<Transaction>) {
    forall t :: t in ts ==> t.kind == Income || t.kind == Expense
  }

  /** When every record is an income or an expense, the balance is the income
      total minus the expense total. */
  lemma {:induction false} BalanceIsIncomeMinusExpenses(ts: seq<Transaction>)
    requires TwoKinds(ts)
    ensures Balance(ts) == MonthlyIncome(ts) - MonthlyExpenses(ts)
  {
    if ts != [] {
      var t, rest := ts[0], ts[1..];
      assert ts == [t] + rest;
      BalanceIsIncomeMinusExpenses(rest);
      FilterAppend([t], rest, (x: Transaction) => x.kind == Income);
      FilterAppend([t], rest, (x: Transaction) => x.kind == Expense);
      TotalAppend(OfKind([t], Income), OfKind(rest, Income));
      TotalAppend(OfKind([t], Expense), OfKind(rest, Expense));
    }
  }

  /** Without a type, a category's total is its income total plus its expense total
      whenever every record is one of the two. */
  lemma {:induction false} CategoryTotalSplits(ts: seq<Transaction>, categoryId: string)
    requires TwoKinds(ts)
    ensures CategoryTotal(ts, categoryId, None)
         == CategoryTotal(ts, categoryId, Some(Income)) + CategoryTotal(ts, categoryId, Some(Expense))
  {
    if ts != [] {
      var t, rest := ts[0], ts[1..];
      assert ts == [t] + rest;
      CategoryTotalSplits(rest, categoryId);
      CategoryTotalCons(t, rest, categoryId, None);
      CategoryTotalCons(t, rest, categoryId, Some(Income));
      CategoryTotalCons(t, rest, categoryId, Some(Expense));
    }
  }

  /** A non-empty sequence of positive amounts has a positive total. */
  lemma {:induction false} TotalPositive(ts: seq<Transaction>)
    requires ts != [] && forall t :: t in ts ==> t.amount > 0.0
    ensures Total(ts) > 0.0
  {
    if |ts| > 1 {
      assert ts[1..][0] in ts;
      TotalPositive(ts[1..]);
    } else {
      assert ts[1..] == [];
    }
  }

  /** With positive amounts, a monthly total is positive exactly when a record of
      its type is there, and 0 otherwise. */
  lemma MonthlyTotalsPositive(ts: seq<Transaction>)
    requires forall t :: t in ts ==> t.amount > 0.0
    ensures MonthlyExpenses(ts) > 0.0 <==> exists t :: t in ts && t.kind == Expense
    ensures MonthlyIncome(ts) > 0.0 <==> exists t :: t in ts && t.kind == Income
    ensures MonthlyExpenses(ts) >= 0.0 && MonthlyIncome(ts) >= 0.0
  {
    forall kind | kind == Expense || kind == Income
      ensures (exists t :: t in ts && t.kind == kind) ==> Total(OfKind(ts, kind)) > 0.0
    {
      if t :| t in ts && t.kind == kind {
        assert t in OfKind(ts, kind);
        TotalPositive(OfKind(ts, kind));
      }
    }
  }

  /** `groupByCategory`: one bucket per distinct `categoryId`, in order of first
      appearance, each holding that category's records in their original order. */
  method GroupByCategory(ts: seq<Transaction>) returns (d: Dict<string, seq<Transaction>>)
    ensures IsGrouping(d, ts, CategoryOf)
    ensures ItemCount(d) == |ts| as real
  {
    d := GroupBy(ts, CategoryOf);
  }

  /** `isValidAmount` applied to the parsed number; `None` is the `NaN` that
      `parseFloat` gives for text that is not a number. There is no upper bound. */
  predicate IsValidAmount(amount: Option<real>) {
    amount.Some? && amount.value > 0.0
  }

  /** Zero, a negative number and text that is not a number are refused; the
      smallest positive amount a user types is accepted. */
  lemma ValidAmounts()
    ensures !IsValidAmount(None) && !IsValidAmount(Some(0.0)) && !IsValidAmount(Some(-5.0))
    ensures IsValidAmount(Some(0.01))
  {
  }

  /** What `formatCurrency` returns: the amount itself for an unknown currency
      code, or a sign, a symbol and the magnitude `toFixed(2)` prints. */
  datatype Formatted = Unformatted(amount: real) | Money(negative: bool, symbol: string, magnitude: real)

  /** The amount a formatted value shows. */
  function Shown(f: Formatted): real {
    match f
    case Unformatted(a) => a
    case Money(negative, _, magnitude) => if negative then -magnitude else magnitude
  }

  /** `formatCurrency(amount, currency)`; an omitted `currency` (`None`) is "USD". */
  function FormatCurrency(amount: real, currency: Option<string>): (r: Formatted)
    ensures currency.GetOr(Constants.DefaultCurrency) !in Constants.Currencies <==> r == Unformatted(amount)
    ensures r.Money? ==> r.symbol == Constants.Currencies[currency.GetOr(Constants.DefaultCurrency)].symbol
    ensures r.Money? ==> r.magnitude >= 0.0 && (r.negative <==> amount < 0.0)
    ensures Shown(r) == amount
  {
    var code := currency.GetOr(Constants.DefaultCurrency);
    if code !in Constants.Currencies then Unformatted(amount)
    else
      var magnitude := if amount < 0.0 then -amount else amount;
      Money(amount < 0.0, Constants.Currencies[code].symbol, magnitude)
  }
}
