/** The dashboard's derived values: the three largest expense categories of the
    current month, the five latest transactions of the current month, the
    colour of the balance card, and the sign shown before an amount. */
module DashboardScreen {
  import opened Wrappers
  import opened Calendar
  import opened Records
  import opened Seqs
  import opened Dicts
  import opened MoneyUtils
  import opened AppContext

  /** One line of the top-categories card: the category found by id (possibly
      none) and its amount. */
  datatype Ranked = Ranked(category: Option<Category>, amount: real)

  function RankedAmount(r: Ranked): real {
    r.amount
  }

  /** `Object.entries(d)`: the key-value pairs in key order. */
  function EntriesOf(d: Dict<string, real>): (r: seq<(string, real)>)
    requires forall k :: k in d.keys ==> k in d.entries
    ensures |r| == |d.keys|
    ensures forall e :: e in r <==> e.0 in d.keys && e.1 == d.entries[e.0]
  {
    var r := seq(|d.keys|, i requires 0 <= i < |d.keys| => (d.keys[i], d.entries[d.keys[i]]));
    assert forall i :: 0 <= i < |d.keys| ==> r[i].0 == d.keys[i];
    r
  }

  function EntryAmount(e: (string, real)): real {
    e.1
  }

  /** The number of categories the card shows. */
  const TopCount: nat := 3

  /** `Object.entries(stats).sort(([, a], [, b]) => b - a).slice(0, 3)`. */
  function TopEntries(d: Dict<string, real>): (r: seq<(string, real)>)
    requires forall k :: k in d.keys ==> k in d.entries
    ensures |r| == if |d.keys| < TopCount then |d.keys| else TopCount
    ensures SortedDesc(r, EntryAmount)
    ensures multiset(r) <= multiset(EntriesOf(d))
    ensures forall e :: e in r ==> e.0 in d.keys && e.1 == d.entries[e.0]
    ensures forall k, i :: k in d.keys && (forall e :: e in r ==> e.0 != k) && 0 <= i < |r| ==>
      d.entries[k] <= r[i].1
  {
    var entries := EntriesOf(d);
    var r := TakeTop(entries, EntryAmount, TopCount);
    SubMultisetMembers(r, entries);
    KeysDominated(d, entries, r);
    r
  }

  /** Sort-then-slice over the entries: a key whose entry was left out has no
      larger amount than any entry kept. */
  lemma KeysDominated(d: Dict<string, real>, entries: seq<(string, real)>, r: seq<(string, real)>)
    requires forall k :: k in d.keys ==> k in d.entries
    requires forall e :: e in entries <==> e.0 in d.keys && e.1 == d.entries[e.0]
    requires forall x, i :: x in entries && x !in r && 0 <= i < |r| ==> EntryAmount(x) <= EntryAmount(r[i])
    ensures forall k, i :: k in d.keys && (forall e :: e in r ==> e.0 != k) && 0 <= i < |r| ==>
      d.entries[k] <= r[i].1
  {
    forall k, i | k in d.keys && (forall e :: e in r ==> e.0 != k) && 0 <= i < |r|
      ensures d.entries[k] <= r[i].1
    {
      var e := (k, d.entries[k]);
      assert e in entries && e !in r;
      assert EntryAmount(e) <= EntryAmount(r[i]);
    }
  }

  /** `topCategories`: the top entries, in order, each looked up in the
      categories. A category left out has no more than any category shown. */
  function TopCategories(stats: Dict<string, real>, categories: seq<Category>): (r: seq<Ranked>)
    requires forall k :: k in stats.keys ==> k in stats.entries
    ensures |r| == |TopEntries(stats)| == if |stats.keys| < TopCount then |stats.keys| else TopCount
    ensures forall i :: 0 <= i < |r| ==>
      r[i] == Ranked(CategoryById(categories, TopEntries(stats)[i].0), TopEntries(stats)[i].1)
    ensures SortedDesc(r, RankedAmount)
    ensures forall i :: 0 <= i < |r| ==>
      exists k :: k in stats.keys && r[i].amount == stats.entries[k] && r[i].category == CategoryById(categories, k)
    ensures forall k, i :: k in stats.keys && (forall e :: e in TopEntries(stats) ==> e.0 != k) && 0 <= i < |r| ==>
      stats.entries[k] <= r[i].amount
  {
    var top := TopEntries(stats);
    RanksSorted(top, categories);
    RanksFound(stats, top, categories);
    Ranks(top, categories)
  }

  /** `.map(([categoryId, amount]) => ({ category: getCategoryById(categoryId), amount }))`. */
  function Ranks(top: seq<(string, real)>, categories: seq<Category>): (r: seq<Ranked>)
    ensures |r| == |top|
    ensures forall i :: 0 <= i < |r| ==> r[i] == Ranked(CategoryById(categories, top[i].0), top[i].1)
  {
    seq(|top|, i requires 0 <= i < |top| => Ranked(CategoryById(categories, top[i].0), top[i].1))
  }

  /** Ranking keeps the descending order of the entries. */
  lemma RanksSorted(top: seq<(string, real)>, categories: seq<Category>)
    requires SortedDesc(top, EntryAmount)
    ensures SortedDesc(Ranks(top, categories), RankedAmount)
  {
    var r := Ranks(top, categories);
    forall i, j | 0 <= i < j < |r| ensures RankedAmount(r[i]) >= RankedAmount(r[j]) {
      assert EntryAmount(top[i]) >= EntryAmount(top[j]);
    }
  }

  /** Each ranked line is the amount of its entry's key, with the category of
      that key. */
  lemma RanksFound(stats: Dict<string, real>, top: seq<(string, real)>, categories: seq<Category>)
    requires forall k :: k in stats.keys ==> k in stats.entries
    requires forall e :: e in top ==> e.0 in stats.keys && e.1 == stats.entries[e.0]
    ensures forall i :: 0 <= i < |top| ==>
      top[i].0 in stats.keys && Ranks(top, categories)[i].amount == stats.entries[top[i].0]
        && Ranks(top, categories)[i].category == CategoryById(categories, top[i].0)
  {
    forall i | 0 <= i < |top|
      ensures top[i].0 in stats.keys && Ranks(top, categories)[i].amount == stats.entries[top[i].0]
    {
      assert top[i] in top;
    }
  }

  /** The number of transactions the recent list shows. */
  const RecentCount: nat := 5

  /** The date a transaction is ordered by. */
  function DateOf(t: Transaction): real {
    t.date as real
  }

  /** `recentTransactions`: this month's records, latest first, at most five. */
  function RecentTransactions(ts: seq<Transaction>, now: Timestamp): (r: seq<Transaction>)
    ensures |r| == if |ThisMonth(ts, now)| < RecentCount then |ThisMonth(ts, now)| else RecentCount
    ensures multiset(r) <= multiset(ThisMonth(ts, now))
    ensures forall t :: t in r ==> t in ts && IsThisMonth(t.date, now)
    ensures SortedDesc(r, DateOf)
    ensures forall t, i :: t in ts && IsThisMonth(t.date, now) && t !in r && 0 <= i < |r| ==> t.date <= r[i].date
  {
    var month := ThisMonth(ts, now);
    var r := TakeTop(month, DateOf, RecentCount);
    forall t | t in r ensures t in month {
      assert t in multiset(r);
    }
    forall t, i | t in ts && IsThisMonth(t.date, now) && t !in r && 0 <= i < |r| ensures t.date <= r[i].date {
      assert t in month;
      assert DateOf(t) <= DateOf(r[i]);
    }
    r
  }

  /** The balance card's colour. */
  datatype Status = SuccessColor | WarningColor | ErrorColor

  /** `getStatusColor`: success when the balance covers half the month's income,
      warning when it is merely not negative, error otherwise. */
  function StatusColor(balance: real, monthlyIncome: real): (s: Status)
    ensures s == SuccessColor <==> balance >= monthlyIncome * 0.5
    ensures s == WarningColor <==> balance < monthlyIncome * 0.5 && balance >= 0.0
    ensures s == ErrorColor <==> balance < monthlyIncome * 0.5 && balance < 0.0
  {
    if balance >= monthlyIncome * 0.5 then SuccessColor
    else if balance >= 0.0 then WarningColor
    else ErrorColor
  }

  /** How good a colour is: error, then warning, then success. */
  function Rank(s: Status): nat {
    match s
    case ErrorColor => 0
    case WarningColor => 1
    case SuccessColor => 2
  }

  /** With a non-negative monthly income, a larger balance never gets a worse
      colour, and the error colour means exactly a negative balance. */
  lemma StatusMonotone(balance: real, larger: real, monthlyIncome: real)
    requires monthlyIncome >= 0.0 && balance <= larger
    ensures Rank(StatusColor(balance, monthlyIncome)) <= Rank(StatusColor(larger, monthlyIncome))
    ensures StatusColor(balance, monthlyIncome) == ErrorColor <==> balance < 0.0
  {
  }

  /** A month without income has the success colour as soon as the balance is
      not negative: the warning colour needs some income. */
  lemma NoIncomeSkipsWarning(balance: real)
    ensures StatusColor(balance, 0.0) != WarningColor
  {
  }

  /** The monthly income the dashboard passes is never negative when every
      amount is positive, so the colours are ordered by the balance. */
  lemma MonthlyIncomeNonNegative(ts: seq<Transaction>, now: Timestamp)
    requires forall t :: t in ts ==> t.amount > 0.0
    ensures MonthlyIncome(ThisMonth(ts, now)) >= 0.0
  {
    var income := OfKind(ThisMonth(ts, now), Income);
    if income != [] {
      TotalPositive(income);
    }
  }

  /** The sign before a listed amount. */
  function SignPrefix(t: Transaction): (sign: string)
    ensures sign == "+" <==> t.kind == Income
    ensures sign == "-" <==> t.kind != Income
  {
    if t.kind == Income then "+" else "-"
  }
}
